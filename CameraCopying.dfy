/** The copy run (`CameraCopy.Run`): one sequential pass over the file records that renames,
    moves or copies each selected file to its destination, guards against writing the same
    destination twice in one run, collects the removable drives to eject, keeps five
    counters for the closing summary, and opens the destination folders afterwards. */
module CameraCopying {
  import opened Wrappers
  import opened Text
  import opened Paths
  import opened Enumerations
  import opened Platform
  import opened FileAttributes
  import opened CameraSettings
  import opened AttributeExtensions
  import opened CameraFiles
  import opened CameraLoading

  // ---- the closing summary ----

  /** The run's five counters. */
  datatype Counts = Counts(moved: nat, copied: nat, renamed: nat, failed: nat, skipped: nat)

  const NoCounts := Counts(0, 0, 0, 0, 0)

  /** "Moved 3 files." and the like. */
  function Sentence(verb: string, n: nat): (r: string)
    ensures r != []
  {
    verb + " " + NatToString(n) + " files."
  }

  /** `finalCopiedText`: one sentence for each nonzero counter, in the order moved, copied,
      renamed, failed, skipped; each but the skipped one is followed by a space. */
  function FinalCopiedText(c: Counts): (text: string)
    ensures text == [] <==> c == NoCounts
  {
    (if c.moved > 0 then Sentence("Moved", c.moved) + " " else "")
    + (if c.copied > 0 then Sentence("Copied", c.copied) + " " else "")
    + (if c.renamed > 0 then Sentence("Renamed", c.renamed) + " " else "")
    + (if c.failed > 0 then Sentence("Failed", c.failed) + " " else "")
    + (if c.skipped > 0 then Sentence("Skipped", c.skipped) else "")
  }

  /** The counters with the verbs that name them, in summary order. */
  function Tallies(c: Counts): seq<(string, nat)> {
    [("Moved", c.moved), ("Copied", c.copied), ("Renamed", c.renamed), ("Failed", c.failed), ("Skipped", c.skipped)]
  }

  /** The sentences of the nonzero tallies, in order. */
  function Reported(tallies: seq<(string, nat)>): (r: seq<string>)
    ensures |r| <= |tallies|
  {
    if tallies == [] then []
    else (if tallies[0].1 > 0 then [Sentence(tallies[0].0, tallies[0].1)] else []) + Reported(tallies[1..])
  }

  /** Each part followed by a space. */
  function Terminated(parts: seq<string>): string {
    if parts == [] then [] else parts[0] + " " + Terminated(parts[1..])
  }

  lemma {:induction false} ReportedAppend(a: seq<(string, nat)>, b: seq<(string, nat)>)
    ensures Reported(a + b) == Reported(a) + Reported(b)
    decreases |a|
  {
    if a != [] {
      assert (a + b)[1..] == a[1..] + b;
      ReportedAppend(a[1..], b);
    } else {
      assert a + b == b;
    }
  }

  lemma {:induction false} TerminatedAppend(a: seq<string>, b: seq<string>)
    ensures Terminated(a + b) == Terminated(a) + Terminated(b)
    decreases |a|
  {
    if a != [] {
      assert (a + b)[1..] == a[1..] + b;
      TerminatedAppend(a[1..], b);
    } else {
      assert a + b == b;
    }
  }

  /** Space-terminated parts are the joined parts plus one trailing space. */
  lemma {:induction false} TerminatedJoin(parts: seq<string>)
    ensures Terminated(parts) == Join(" ", parts) + (if parts == [] then "" else " ")
    decreases |parts|
  {
    if |parts| > 1 {
      TerminatedJoin(parts[1..]);
      JoinCons(" ", parts[0], parts[1..]);
      assert [parts[0]] + parts[1..] == parts;
    }
  }

  /** Joining a list with one more part at its end. */
  lemma {:induction false} JoinSnoc(parts: seq<string>, last: string)
    ensures Join(" ", parts + [last]) == Terminated(parts) + last
    decreases |parts|
  {
    if parts != [] {
      JoinSnoc(parts[1..], last);
      assert (parts + [last])[1..] == parts[1..] + [last];
      JoinCons(" ", parts[0], parts[1..] + [last]);
      assert [parts[0]] + (parts[1..] + [last]) == parts + [last];
    } else {
      assert parts + [last] == [last];
    }
  }

  /** The sentence of one tally, if it is nonzero. */
  function Optional(t: (string, nat)): seq<string> {
    if t.1 > 0 then [Sentence(t.0, t.1)] else []
  }

  lemma ReportedCons(t: (string, nat), rest: seq<(string, nat)>)
    ensures Reported([t] + rest) == Optional(t) + Reported(rest)
  {
    assert ([t] + rest)[0] == t && ([t] + rest)[1..] == rest;
  }

  lemma TerminatedOptional(t: (string, nat))
    ensures Terminated(Optional(t)) == if t.1 > 0 then Sentence(t.0, t.1) + " " else ""
  {
    if t.1 > 0 {
      assert Optional(t)[1..] == [];
    }
  }

  lemma ReportedFour(t: seq<(string, nat)>)
    requires |t| == 4
    ensures Reported(t) == Optional(t[0]) + Optional(t[1]) + Optional(t[2]) + Optional(t[3])
  {
    hide Sentence;
    assert t == [t[0]] + ([t[1]] + ([t[2]] + ([t[3]] + [])));
    ReportedCons(t[0], [t[1]] + ([t[2]] + ([t[3]] + [])));
    ReportedCons(t[1], [t[2]] + ([t[3]] + []));
    ReportedCons(t[2], [t[3]] + []);
    ReportedCons(t[3], []);
  }

  lemma TerminatedFour(o0: seq<string>, o1: seq<string>, o2: seq<string>, o3: seq<string>)
    ensures Terminated(o0 + o1 + o2 + o3) == Terminated(o0) + Terminated(o1) + Terminated(o2) + Terminated(o3)
  {
    hide Terminated;
    TerminatedAppend(o0 + o1 + o2, o3);
    TerminatedAppend(o0 + o1, o2);
    TerminatedAppend(o0, o1);
  }

  /** The first four counters, each sentence followed by a space. */
  lemma HeadSummary(c: Counts)
    ensures Terminated(Reported(Tallies(c)[..4])) == FinalCopiedText(c.(skipped := 0))
  {
    hide Sentence;
    var t := Tallies(c);
    ReportedFour(t[..4]);
    TerminatedFour(Optional(t[0]), Optional(t[1]), Optional(t[2]), Optional(t[3]));
    TerminatedOptional(t[0]);
    TerminatedOptional(t[1]);
    TerminatedOptional(t[2]);
    TerminatedOptional(t[3]);
  }

  lemma FinalSplit(c: Counts)
    ensures FinalCopiedText(c) == FinalCopiedText(c.(skipped := 0)) + (if c.skipped > 0 then Sentence("Skipped", c.skipped) else "")
  {
  }

  /** The summary is the sentences of the nonzero counters joined by spaces, with a trailing
      space unless the last of them reports skipped files. */
  lemma FinalCopiedTextLists(c: Counts)
    ensures FinalCopiedText(c) == Join(" ", Reported(Tallies(c)))
      + (if c.skipped == 0 && Reported(Tallies(c)) != [] then " " else "")
  {
    FinalSplit(c);
    hide FinalCopiedText, Sentence, Join, Terminated;
    var t := Tallies(c);
    var r4 := Reported(t[..4]);
    assert t == t[..4] + [t[4]];
    ReportedAppend(t[..4], [t[4]]);
    ReportedCons(t[4], []);
    HeadSummary(c);
    var head := FinalCopiedText(c.(skipped := 0));
    if c.skipped > 0 {
      assert Reported(t) == r4 + [Sentence("Skipped", c.skipped)];
      JoinSnoc(r4, Sentence("Skipped", c.skipped));
    } else {
      assert Reported(t) == r4;
      TerminatedJoin(r4);
    }
  }

  // ---- the duplicate guard ----

  /** `successfulCopies`: for each destination folder, in the order the folders were first
      written, the file names written there in this run, in insertion order. */
  datatype Guard = Guard(folders: seq<string>, names: map<string, seq<string>>) {
    /** Each folder is listed once and has an entry; an entry lists each name once and is
        never empty. */
    ghost predicate Valid() {
      && (forall i, j | 0 <= i < j < |folders| :: folders[i] != folders[j])
      && (forall d :: d in names <==> d in folders)
      && (forall d | d in names :: names[d] != [] && forall i, j | 0 <= i < j < |names[d]| :: names[d][i] != names[d][j])
    }

    /** Whether `name` was already written into folder `dir`. */
    predicate Has(dir: string, name: string) {
      dir in names && name in names[dir]
    }

    /** Records `name` as written into `dir`, giving the folder an entry the first time. */
    function Add(dir: string, name: string): (g: Guard)
      ensures Valid() ==> g.Valid()
      ensures forall d, n :: g.Has(d, n) <==> Has(d, n) || (d == dir && n == name)
      ensures forall d | d in names :: d in g.names && names[d] <= g.names[d]
      ensures g.folders == folders || g.folders == folders + [dir]
    {
      var current := if dir in names then names[dir] else [];
      Guard(if dir in names then folders else folders + [dir],
            names[dir := if name in current then current else current + [name]])
    }
  }

  const EmptyGuard := Guard([], map[])

  lemma EmptyGuardValid()
    ensures EmptyGuard.Valid() && forall d, n :: !EmptyGuard.Has(d, n)
  {
  }

  // ---- opening the destination folders ----

  /** One start of the folder viewer: the folder and the files to select in it. */
  datatype Request = Request(folder: string, files: seq<string>)

  const StartFailurePrefix := "An error occurred trying to start process"
  const TooLongSuffix := "The filename or extension is too long."

  /** The `Win32Exception` that says the argument list is too long. */
  predicate TooLong(message: string) {
    StartsWith(message, StartFailurePrefix) && EndsWith(message, TooLongSuffix)
  }

  /** `FirstOrDefault` of a folder's names, a null name printing as "". */
  function FirstName(files: seq<string>): string {
    if files == [] then "" else files[0]
  }

  /** One folder of `OpenFoldersAfter`: the viewer is started with every file; a too-long
      failure retries with only the first, whose own failure escapes; other `Win32Exception`s
      are swallowed and any other exception escapes. */
  function OpenFolder(folder: string, files: seq<string>, env: Env): (r: (seq<Request>, Outcome))
    ensures 1 <= |r.0| <= 2 && r.0[0] == Request(folder, files)
    ensures |r.0| == 2 <==> env.launch(folder, files).Win32Failure? && TooLong(env.launch(folder, files).message)
    ensures |r.0| == 2 ==> r.0[1] == Request(folder, [FirstName(files)])
    ensures |r.0| == 1 ==> (r.1.Raised? <==> env.launch(folder, files).OtherFailure?)
    ensures |r.0| == 2 ==> (r.1.Raised? <==> !env.launch(folder, [FirstName(files)]).Launched?)
  {
    var first := Request(folder, files);
    match env.launch(folder, files)
    case Launched => ([first], Done)
    case OtherFailure(message) => ([first], Raised(message))
    case Win32Failure(message) =>
      if !TooLong(message) then ([first], Done)
      else
        var retry := Request(folder, [FirstName(files)]);
        match env.launch(folder, retry.files)
        case Launched => ([first, retry], Done)
        case Win32Failure(again) => ([first, retry], Raised(again))
        case OtherFailure(again) => ([first, retry], Raised(again))
  }

  /** The starts for the folders from position `from` on, and the exception that ends them
      early, if any. */
  function Launches(g: Guard, from: nat, env: Env): (r: (seq<Request>, Outcome))
    requires g.Valid() && from <= |g.folders|
    decreases |g.folders| - from
  {
    if from == |g.folders| then ([], Done)
    else
      var folder := g.folders[from];
      var one := OpenFolder(folder, g.names[folder], env);
      if one.1.Raised? then one
      else
        var rest := Launches(g, from + 1, env);
        (one.0 + rest.0, rest.1)
  }

  /** One step of `Launches`. */
  lemma LaunchesStep(g: Guard, from: nat, env: Env)
    requires g.Valid() && from <= |g.folders|
    ensures from == |g.folders| ==> Launches(g, from, env) == ([], Done)
    ensures from < |g.folders| ==> var one := OpenFolder(g.folders[from], g.names[g.folders[from]], env);
      && (one.1.Raised? ==> Launches(g, from, env) == one)
      && (one.1.Done? ==> Launches(g, from, env).0 == one.0 + Launches(g, from + 1, env).0
                           && Launches(g, from, env).1 == Launches(g, from + 1, env).1)
  {
  }

  /** Every start is for a written folder, with all of its files or, on a retry, its first
      one; when nothing escapes, every folder was started with all of its files. */
  lemma {:induction false} LaunchesCoverFolders(g: Guard, from: nat, env: Env)
    requires g.Valid() && from <= |g.folders|
    ensures forall q | q in Launches(g, from, env).0 ::
      q.folder in g.names && (q.files == g.names[q.folder] || q.files == [FirstName(g.names[q.folder])])
    ensures Launches(g, from, env).1 == Done ==>
      forall k | from <= k < |g.folders| :: Request(g.folders[k], g.names[g.folders[k]]) in Launches(g, from, env).0
    decreases |g.folders| - from
  {
    if from < |g.folders| {
      LaunchesCoverFolders(g, from + 1, env);
    }
  }

  /** `OpenFoldersAfter`: each written folder, in the order it was first written, is opened
      with its files selected. */
  method OpenFoldersAfter(g: Guard, env: Env) returns (started: seq<Request>, outcome: Outcome)
    requires g.Valid()
    ensures (started, outcome) == Launches(g, 0, env)
  {
    hide Launches;
    started := [];
    var i := 0;
    assert [] + Launches(g, 0, env).0 == Launches(g, 0, env).0;
    while i < |g.folders|
      invariant 0 <= i <= |g.folders|
      invariant Launches(g, 0, env).0 == started + Launches(g, i, env).0
      invariant Launches(g, 0, env).1 == Launches(g, i, env).1
      decreases |g.folders| - i
    {
      var folder := g.folders[i];
      var files := g.names[folder];
      ghost var one := OpenFolder(folder, files, env);
      ghost var old_started := started;
      LaunchesStep(g, i, env);
      started := started + [Request(folder, files)];
      var launch := env.launch(folder, files);
      if launch.OtherFailure? {
        return started, Raised(launch.message);
      } else if launch.Win32Failure? && TooLong(launch.message) {
        var retry := [FirstName(files)];
        started := started + [Request(folder, retry)];
        var again := env.launch(folder, retry);
        assert started == old_started + one.0;
        if !again.Launched? {
          return started, Raised(again.message);
        }
      }
      i := i + 1;
    }
    LaunchesStep(g, i, env);
    assert started + [] == started;
    outcome := Done;
  }

  // ---- what the run reads and changes ----

  /** The exception messages the run produces itself. */
  const DuplicateMessage: string := "Duplicate"
  const TaskCanceledMessage: string := "A task was canceled."
  const NullKeyMessage: string := "Value cannot be null. (Parameter 'key')"
  const NullFirstPathMessage: string := "Value cannot be null. (Parameter 'path1')"
  const NullSecondPathMessage: string := "Value cannot be null. (Parameter 'path2')"

  /** The profile fields the run reads. */
  datatype Profile = Profile(cameraType: CameraType, make: Option<string>, model: Option<string>)

  /** The three record fields the run changes. */
  datatype Snapshot = Snapshot(selected: bool, status: StatusType, error: Option<string>)

  /** What the run reads from a record and never changes. */
  datatype Job = Job(
    attributes: seq<FileAttribute>,
    destination: Result<string>,
    destinationFileName: Option<string>,
    sourceDirectory: Option<string>,
    source: string,
    move: bool,
    camera: Option<Profile>)

  /** A record as the run finds it. */
  datatype Input = Input(snapshot: Snapshot, job: Job)

  function SnapshotOf(f: CameraFileInfo): Snapshot
    reads f`selected, f`status, f`error
  {
    Snapshot(f.selected, f.status, f.error)
  }

  function ProfileOf(camera: Option<CameraSetting>): (r: Option<Profile>)
    reads if camera.Some? then {camera.value} else {}
    ensures r.Some? <==> camera.Some?
  {
    if camera.Some? then Some(Profile(camera.value.cameraType, camera.value.make, camera.value.model)) else Null
  }

  function JobOf(f: CameraFileInfo): (j: Job)
    reads f`fileAttributes, f`destinationDirectory, f`destinationFileName, f`move, f`camera
    reads if f.camera.Some? then {f.camera.value} else {}
    ensures j.destination.Ok? <==> j.destinationFileName.Some?
  {
    Job(f.fileAttributes, f.Destination(), f.destinationFileName, f.sourceDirectory, f.Source(), f.move, ProfileOf(f.camera))
  }

  function InputOf(f: CameraFileInfo): (i: Input)
    reads f, if f.camera.Some? then {f.camera.value} else {}
    ensures i.snapshot == SnapshotOf(f) && i.job == JobOf(f)
  {
    Input(SnapshotOf(f), JobOf(f))
  }

  /** The records' inputs, in list order. */
  function Inputs(files: seq<CameraFileInfo>): (r: seq<Input>)
    reads set f | f in files, set f | f in files && f.camera.Some? :: f.camera.value
    ensures |r| == |files| && forall k | 0 <= k < |files| :: r[k] == InputOf(files[k])
  {
    if files == [] then [] else Inputs(files[..|files| - 1]) + [InputOf(files[|files| - 1])]
  }

  /** What one run has done so far: the file system, the duplicate guard, the drives to eject
      and the counters. */
  datatype State = State(disk: Disk, guard: Guard, eject: set<string>, counts: Counts)

  function Initial(disk: Disk): State {
    State(disk, EmptyGuard, {}, NoCounts)
  }

  /** How the try block of one selected record ends: its operation completed (with the
      effective target), an exception other than cancellation was raised, or the pending
      cancellation was observed when the operation was about to start. Each carries the state
      as the exception left it. */
  datatype Attempt =
    | Written(state: State, target: string)
    | Threw(state: State, message: string)
    | Interrupted(state: State)
  {
    function After(): State {
      match this
      case Written(s, _) => s
      case Threw(s, _) => s
      case Interrupted(s) => s
    }
  }

  /** The effective target: the destination itself when it is rooted, else the destination
      resolved against the source directory. */
  function TargetOf(destination: string, sourceDirectory: Option<string>): (r: Result<string>)
    ensures IsPathRooted(destination) ==> r == Ok(destination)
    ensures r.Fail? <==> !IsPathRooted(destination) && sourceDirectory.Null?
  {
    if IsPathRooted(destination) then Ok(destination)
    else if sourceDirectory.Null? then Fail(NullFirstPathMessage)
    else Ok(Combine(sourceDirectory.value, destination))
  }

  /** Whether the copy type moves this record: Move, or Run for a record whose Move is set. */
  predicate Moves(copyType: CopyType, move: bool) {
    (copyType == CopyType.Run && move) || copyType == CopyType.Move
  }

  /** The files written so far, whichever way. */
  function Tally(c: Counts): nat {
    c.moved + c.copied + c.renamed
  }

  function Count(c: Counts, copyType: CopyType, move: bool): Counts {
    if copyType == CopyType.Demonstration then c.(copied := c.copied + 1)
    else if copyType == CopyType.Rename then c.(renamed := c.renamed + 1)
    else if Moves(copyType, move) then c.(moved := c.moved + 1)
    else c.(copied := c.copied + 1)
  }

  /** The operation the copy type selects, with `canceled` telling whether the cancellation
      token is already signalled when the operation's task is started. */
  function Operate(j: Job, copyType: CopyType, target: string, canceled: bool, s: State): (a: Attempt)
    ensures a.After().guard == s.guard && a.After().eject == s.eject
    ensures a.After().counts.failed == s.counts.failed && a.After().counts.skipped == s.counts.skipped
    ensures a.Interrupted? ==> canceled
    ensures a.Written? ==> Tally(a.After().counts) == Tally(s.counts) + 1
    ensures !a.Written? ==> a.After().counts == s.counts
    ensures a.Written? && copyType != CopyType.Rename ==> a.target == target
    ensures copyType == CopyType.Demonstration ==> a.After().disk == s.disk
  {
    if copyType == CopyType.Demonstration then
      if canceled then Interrupted(s) else Written(s.(counts := Count(s.counts, copyType, j.move)), target)
    else if copyType == CopyType.Rename then
      if j.sourceDirectory.Null? then Threw(s, NullFirstPathMessage)
      else if j.destinationFileName.Null? then Threw(s, NullSecondPathMessage)
      else
        var renamed := Combine(j.sourceDirectory.value, j.destinationFileName.value);
        if canceled then Interrupted(s)
        else match MoveFile(s.disk, j.source, renamed, false)
          case Fail(message) => Threw(s, message)
          case Ok(disk) => Written(s.(disk := disk, counts := Count(s.counts, copyType, j.move)), renamed)
    else
      match CreateDirectory(s.disk, GetDirectoryName(target))
      case Fail(message) => Threw(s, message)
      case Ok(created) =>
        var s1 := s.(disk := created);
        if canceled then Interrupted(s1)
        else
          var done := if Moves(copyType, j.move) then MoveFile(created, j.source, target, true) else CopyFile(created, j.source, target);
          match done
          case Fail(message) => Threw(s1, message)
          case Ok(disk) => Written(s1.(disk := disk, counts := Count(s.counts, copyType, j.move)), target)
  }

  /** The drives to eject after a record of this profile was written: a Camera or Drone adds
      the removable drive its source lies on. The source directory's root is taken inside the
      drive search, once per removable drive, so with no removable drive a null source
      directory raises nothing. */
  function Ejecting(j: Job, camera: Profile, eject: set<string>, env: Env): (r: Result<set<string>>)
    ensures r.Ok? ==> eject <= r.value <= eject + env.removableDrives
    ensures env.removableDrives == {} ==> r == Ok(eject)
  {
    if camera.cameraType != CameraType.Camera && camera.cameraType != CameraType.Drone then Ok(eject)
    else if env.removableDrives == {} then Ok(eject)
    else match GetDirectoryRoot(j.sourceDirectory)
      case Fail(message) => Fail(message)
      case Ok(root) => Ok(if root in env.removableDrives then eject + {root} else eject)
  }

  /** The tag library errors the performer write ignores. */
  predicate TagIgnored(error: TagError) {
    error == CorruptFile || error == UnsupportedFormat
  }

  /** After a rename, move or copy: the eject set, the read-only bit of the target, and (when
      the record's make and model are both blank) the tag's performers. */
  function FollowUp(j: Job, mm: MakeAndModel, target: string, s: State, env: Env): (a: Attempt)
    ensures a.After().guard == s.guard && a.After().counts == s.counts
    ensures s.eject <= a.After().eject <= s.eject + env.removableDrives
    ensures !a.Interrupted? && (a.Written? ==> a.target == target)
  {
    match j.camera
    case Null => Threw(s, NullReferenceMessage)
    case Some(camera) =>
      match Ejecting(j, camera, s.eject, env)
      case Fail(message) => Threw(s, message)
      case Ok(eject) =>
        var s1 := s.(eject := eject);
        match ClearReadOnly(s1.disk, target)
        case Fail(message) => Threw(s1, message)
        case Ok(cleared) =>
          var s2 := s1.(disk := cleared);
          if !BothBlank(mm) then Written(s2, target)
          else match WritePerformers(cleared, target, [camera.make, camera.model])
            case TagOk(tagged) => Written(s2.(disk := tagged), target)
            case TagFailed(error, message) => if TagIgnored(error) then Written(s2, target) else Threw(s2, message)
  }

  /** The try block of one selected record, up to the bookkeeping of a success. */
  function TransferOf(j: Job, copyType: CopyType, canceled: bool, s: State, cameras: seq<CameraSetting>, env: Env): (a: Attempt)
    reads set c | c in cameras
    ensures a.After().guard == s.guard && a.After().eject <= s.eject + env.removableDrives
    ensures a.After().counts.failed == s.counts.failed && a.After().counts.skipped == s.counts.skipped
    ensures a.Interrupted? ==> canceled
    ensures a.Written? && copyType != CopyType.Rename ==> j.destination.Ok? && TargetOf(j.destination.value, j.sourceDirectory) == Ok(a.target)
    ensures copyType == CopyType.Demonstration ==> a.After().disk == s.disk && a.After().eject == s.eject
  {
    match MakeAndModelOf(j.attributes, cameras, s.disk, true)
    case Fail(message) => Threw(s, message)
    case Ok(mm) =>
      match j.destination
      case Fail(message) => Threw(s, message)
      case Ok(destination) =>
        match TargetOf(destination, j.sourceDirectory)
        case Fail(message) => Threw(s, message)
        case Ok(target) => PlaceOf(j, mm, destination, target, copyType, canceled, s, env)
  }

  /** From the duplicate check on: the destination's folder and name against the files
      already written, then the file operation and the follow-up work. */
  function PlaceOf(j: Job, mm: MakeAndModel, destination: string, target: string, copyType: CopyType, canceled: bool,
                   s: State, env: Env): (a: Attempt)
    ensures a.After().guard == s.guard && a.After().eject <= s.eject + env.removableDrives
    ensures a.After().counts.failed == s.counts.failed && a.After().counts.skipped == s.counts.skipped
    ensures a.Interrupted? ==> canceled
    ensures a.Written? ==> GetDirectoryName(destination).Some? && !s.guard.Has(GetDirectoryName(destination).value, GetFileName(destination))
    ensures a.Written? && copyType != CopyType.Rename ==> a.target == target
    ensures copyType == CopyType.Demonstration ==> a.After().disk == s.disk && a.After().eject == s.eject
  {
    match GetDirectoryName(destination)
    case Null => Threw(s, NullKeyMessage)
    case Some(dir) =>
      if s.guard.Has(dir, GetFileName(destination)) then Threw(s, DuplicateMessage)
      else match Operate(j, copyType, target, canceled, s)
        case Written(s1, written) =>
          if copyType == CopyType.Demonstration then Written(s1, written) else FollowUp(j, mm, written, s1, env)
        case other => other
  }

  // ---- the pass over the records ----

  /** What stops a run early, as an input: the cancellation token signalled while record
      `index` is handled (before its top-of-loop check, or after it and so while its
      operation is pending), or a progress observer throwing on the event raised after
      record `index`. */
  datatype Interrupt =
    | Uninterrupted
    | Cancel(index: nat, inFlight: bool)
    | ObserverFault(index: nat, message: string)

  /** Whether the top-of-loop check before record `k` finds the token signalled. */
  predicate TopCancel(interrupt: Interrupt, k: nat) {
    interrupt.Cancel? && (interrupt.index < k || (interrupt.index == k && !interrupt.inFlight))
  }

  /** How the pass stands: going on, stopped by cancellation, or stopped by any other
      exception, with its message. */
  datatype Halt = Going | HaltCanceled(message: string) | HaltFailed(message: string)

  /** The progress event after record `k`. */
  function Observe(interrupt: Interrupt, k: nat): (h: Halt)
    ensures h.Going? || h.HaltFailed?
  {
    if interrupt.ObserverFault? && interrupt.index == k then HaltFailed(interrupt.message) else Going
  }

  /** One record handled: the new state, the record's new fields, and whether the pass stops. */
  datatype Step = Step(state: State, snapshot: Snapshot, halt: Halt)

  /** The end of a selected record's try block: the cancellation catch (the record goes
      back to Ready, keeping its error, and the pass stops), the catch of any other exception
      (the record fails with the message and the pass goes on), or the bookkeeping of a
      success, which itself throws when the target has no directory. */
  function Settle(k: nat, error: Option<string>, a: Attempt, interrupt: Interrupt): (r: Step)
    ensures a.After().guard.Valid() ==> r.state.guard.Valid()
  {
    match a
    case Interrupted(s1) =>
      Step(s1.(counts := s1.counts.(skipped := s1.counts.skipped + 1)),
           Snapshot(true, StatusType.Ready, error), HaltCanceled(TaskCanceledMessage))
    case Threw(s1, message) =>
      Step(s1.(counts := s1.counts.(failed := s1.counts.failed + 1)),
           Snapshot(true, StatusType.Failed, Some(message)), Observe(interrupt, k))
    case Written(s1, target) =>
      match GetDirectoryName(target)
      case Null =>
        Step(s1.(counts := s1.counts.(failed := s1.counts.failed + 1)),
             Snapshot(false, StatusType.Failed, Some(NullKeyMessage)), Observe(interrupt, k))
      case Some(dir) =>
        Step(s1.(guard := s1.guard.Add(dir, GetFileName(target))), Snapshot(false, StatusType.Success, Null), Observe(interrupt, k))
  }

  /** One record past the top-of-loop check: an unselected record is skipped unless it
      already succeeded; a selected one goes through the try block. */
  function Handle(k: nat, input: Input, copyType: CopyType, interrupt: Interrupt, s: State,
                  cameras: seq<CameraSetting>, env: Env): (r: Step)
    reads set c | c in cameras
    ensures s.guard.Valid() ==> r.state.guard.Valid()
  {
    if !input.snapshot.selected then
      if input.snapshot.status != StatusType.Success then
        Step(s.(counts := s.counts.(skipped := s.counts.skipped + 1)), Snapshot(false, StatusType.Skipped, Null), Observe(interrupt, k))
      else Step(s, input.snapshot, Observe(interrupt, k))
    else Settle(k, input.snapshot.error, TransferOf(input.job, copyType, interrupt == Cancel(k, true), s, cameras, env), interrupt)
  }

  /** The pass so far: the state, every record's fields (untouched past `reached`), how the
      pass stands, and how many records it has handled. */
  datatype Progress = Progress(state: State, snapshots: seq<Snapshot>, halt: Halt, reached: nat)

  /** The pass over `inputs`, record by record. */
  function Loop(inputs: seq<Input>, copyType: CopyType, interrupt: Interrupt, cameras: seq<CameraSetting>,
                env: Env, disk: Disk): (p: Progress)
    reads set c | c in cameras
    ensures |p.snapshots| == |inputs| && p.reached <= |inputs|
    ensures p.halt.Going? ==> p.reached == |inputs|
    ensures p.state.guard.Valid()
    decreases |inputs|
  {
    if inputs == [] then EmptyGuardValid(); Progress(Initial(disk), [], Going, 0)
    else
      var k := |inputs| - 1;
      var p := Loop(inputs[..k], copyType, interrupt, cameras, env, disk);
      if !p.halt.Going? then p.(snapshots := p.snapshots + [inputs[k].snapshot])
      else if TopCancel(interrupt, k) then Progress(p.state, p.snapshots + [inputs[k].snapshot], HaltCanceled(CanceledMessage), k)
      else
        var step := Handle(k, inputs[k], copyType, interrupt, p.state, cameras, env);
        Progress(step.state, p.snapshots + [step.snapshot], step.halt, k + 1)
  }

  // ---- the run ----

  /** The rename, move or copy of one record (or the pretended copy). */
  method Operation(file: CameraFileInfo, copyType: CopyType, target: string, canceled: bool, s: State)
    returns (a: Attempt)
    ensures a == Operate(JobOf(file), copyType, target, canceled, s)
  {
    hide MoveFile, CopyFile, CreateDirectory, Combine, GetDirectoryName;
    if copyType == CopyType.Demonstration {
      if canceled {
        return Interrupted(s);
      }
      return Written(s.(counts := s.counts.(copied := s.counts.copied + 1)), target);
    } else if copyType == CopyType.Rename {
      if file.sourceDirectory.Null? {
        return Threw(s, NullFirstPathMessage);
      } else if file.destinationFileName.Null? {
        return Threw(s, NullSecondPathMessage);
      }
      var renamed := Combine(file.sourceDirectory.value, file.destinationFileName.value);
      if canceled {
        return Interrupted(s);
      }
      var moved := MoveFile(s.disk, file.Source(), renamed, false);
      if moved.Fail? {
        return Threw(s, moved.message);
      }
      return Written(s.(disk := moved.value, counts := s.counts.(renamed := s.counts.renamed + 1)), renamed);
    } else if (copyType == CopyType.Run && file.move) || copyType == CopyType.Move {
      var created := CreateDirectory(s.disk, GetDirectoryName(target));
      if created.Fail? {
        return Threw(s, created.message);
      }
      if canceled {
        return Interrupted(s.(disk := created.value));
      }
      var moved := MoveFile(created.value, file.Source(), target, true);
      if moved.Fail? {
        return Threw(s.(disk := created.value), moved.message);
      }
      return Written(s.(disk := moved.value, counts := s.counts.(moved := s.counts.moved + 1)), target);
    } else {
      var created := CreateDirectory(s.disk, GetDirectoryName(target));
      if created.Fail? {
        return Threw(s, created.message);
      }
      if canceled {
        return Interrupted(s.(disk := created.value));
      }
      var copied := CopyFile(created.value, file.Source(), target);
      if copied.Fail? {
        return Threw(s.(disk := created.value), copied.message);
      }
      return Written(s.(disk := copied.value, counts := s.counts.(copied := s.counts.copied + 1)), target);
    }
  }

  /** What follows a rename, move or copy: the eject set, the read-only bit, the tag. */
  method Finish(file: CameraFileInfo, mm: MakeAndModel, target: string, s: State, env: Env) returns (a: Attempt)
    ensures a == FollowUp(JobOf(file), mm, target, s, env)
  {
    hide ClearReadOnly, WritePerformers, GetDirectoryRoot, BothBlank;
    if file.camera.Null? {
      return Threw(s, NullReferenceMessage);
    }
    var camera := file.camera.value;
    var state := s;
    if (camera.cameraType == CameraType.Camera || camera.cameraType == CameraType.Drone) && env.removableDrives != {} {
      var root := GetDirectoryRoot(file.sourceDirectory);
      if root.Fail? {
        return Threw(state, root.message);
      }
      if root.value in env.removableDrives {
        state := state.(eject := state.eject + {root.value});
      }
    }
    var cleared := ClearReadOnly(state.disk, target);
    if cleared.Fail? {
      return Threw(state, cleared.message);
    }
    state := state.(disk := cleared.value);
    if BothBlank(mm) {
      var tagged := WritePerformers(state.disk, target, [camera.make, camera.model]);
      if tagged.TagOk? {
        state := state.(disk := tagged.value);
      } else if tagged.error != CorruptFile && tagged.error != UnsupportedFormat {
        return Threw(state, tagged.message);
      }
    }
    return Written(state, target);
  }

  /** The try block of one selected record: the make and model, the effective target, the
      duplicate check, the operation and what follows it. */
  method Transfer(file: CameraFileInfo, copyType: CopyType, canceled: bool, s: State,
                  cameras: seq<CameraSetting>, env: Env) returns (a: Attempt)
    ensures a == TransferOf(JobOf(file), copyType, canceled, s, cameras, env)
  {
    hide MakeAndModelOf, IsPathRooted, Combine, PlaceOf;
    var mm := GetMakeAndModel(file.fileAttributes, cameras, s.disk, true);
    if mm.Fail? {
      return Threw(s, mm.message);
    }
    var destination := file.Destination();
    if destination.Fail? {
      return Threw(s, destination.message);
    }
    var target: string;
    if IsPathRooted(destination.value) {
      target := destination.value;
    } else if file.sourceDirectory.Null? {
      return Threw(s, NullFirstPathMessage);
    } else {
      target := Combine(file.sourceDirectory.value, destination.value);
    }
    assert TargetOf(destination.value, file.sourceDirectory) == Ok(target);
    a := Place(file, mm.value, destination.value, target, copyType, canceled, s, env);
  }

  /** The duplicate check, the file operation and the follow-up work of one record. */
  method Place(file: CameraFileInfo, mm: MakeAndModel, destination: string, target: string, copyType: CopyType,
               canceled: bool, s: State, env: Env) returns (a: Attempt)
    ensures a == PlaceOf(JobOf(file), mm, destination, target, copyType, canceled, s, env)
  {
    hide GetDirectoryName, GetFileName, Operate, FollowUp, Guard.Has;
    var dir := GetDirectoryName(destination);
    if dir.Null? {
      return Threw(s, NullKeyMessage);
    }
    if s.guard.Has(dir.value, GetFileName(destination)) {
      return Threw(s, DuplicateMessage);
    }
    a := Operation(file, copyType, target, canceled, s);
    if a.Written? && copyType != CopyType.Demonstration {
      a := Finish(file, mm, a.target, a.state, env);
    }
  }

  /** The catch blocks and the success bookkeeping of one selected record. */
  method Conclude(file: CameraFileInfo, k: nat, a: Attempt, interrupt: Interrupt) returns (next: State, halt: Halt)
    requires file.selected
    modifies file`selected, file`status, file`error
    ensures Step(next, SnapshotOf(file), halt) == Settle(k, old(file.error), a, interrupt)
  {
    hide GetDirectoryName, GetFileName, Guard.Add;
    match a {
      case Interrupted(s1) =>
        file.SetStatus(StatusType.Ready);
        return s1.(counts := s1.counts.(skipped := s1.counts.skipped + 1)), HaltCanceled(TaskCanceledMessage);
      case Threw(s1, message) =>
        next := s1.(counts := s1.counts.(failed := s1.counts.failed + 1));
        file.SetStatus(StatusType.Failed);
        file.SetError(Some(message));
      case Written(s1, target) =>
        file.SetSelected(false);
        file.SetStatus(StatusType.Success);
        file.SetError(Null);
        var dir := GetDirectoryName(target);
        if dir.Null? {
          next := s1.(counts := s1.counts.(failed := s1.counts.failed + 1));
          file.SetStatus(StatusType.Failed);
          file.SetError(Some(NullKeyMessage));
        } else {
          next := s1.(guard := s1.guard.Add(dir.value, GetFileName(target)));
        }
    }
    halt := Observe(interrupt, k);
  }

  /** One record past the top-of-loop check. */
  method ProcessRecord(file: CameraFileInfo, k: nat, copyType: CopyType, interrupt: Interrupt, s: State,
                       cameras: seq<CameraSetting>, env: Env) returns (next: State, halt: Halt)
    modifies file`selected, file`status, file`error
    ensures Step(next, SnapshotOf(file), halt) == Handle(k, old(InputOf(file)), copyType, interrupt, s, cameras, env)
  {
    hide TransferOf, Settle, InputOf, JobOf;
    ghost var input := InputOf(file);
    if file.selected {
      file.SetStatus(StatusType.Processing);
      assert JobOf(file) == input.job;
      var attempt := Transfer(file, copyType, interrupt == Cancel(k, true), s, cameras, env);
      next, halt := Conclude(file, k, attempt, interrupt);
    } else {
      if file.status != StatusType.Success {
        next := s.(counts := s.counts.(skipped := s.counts.skipped + 1));
        file.SetStatus(StatusType.Skipped);
        file.SetError(Null);
      } else {
        next := s;
      }
      halt := Observe(interrupt, k);
    }
  }

  /** The pass over no records. */
  lemma LoopStart(inputs: seq<Input>, copyType: CopyType, interrupt: Interrupt, cameras: seq<CameraSetting>, env: Env, disk: Disk)
    ensures Loop(inputs[..0], copyType, interrupt, cameras, env, disk) == Progress(Initial(disk), [], Going, 0)
  {
    assert inputs[..0] == [];
  }

  /** One more record: the top-of-loop check, then the record itself. */
  lemma LoopNext(inputs: seq<Input>, k: nat, copyType: CopyType, interrupt: Interrupt, cameras: seq<CameraSetting>,
                 env: Env, disk: Disk)
    requires k < |inputs|
    ensures var p := Loop(inputs[..k], copyType, interrupt, cameras, env, disk);
      var q := Loop(inputs[..k + 1], copyType, interrupt, cameras, env, disk);
      && (!p.halt.Going? ==> q == p.(snapshots := p.snapshots + [inputs[k].snapshot]))
      && (p.halt.Going? && TopCancel(interrupt, k) ==>
            q == Progress(p.state, p.snapshots + [inputs[k].snapshot], HaltCanceled(CanceledMessage), k))
      && (p.halt.Going? && !TopCancel(interrupt, k) ==>
            var step := Handle(k, inputs[k], copyType, interrupt, p.state, cameras, env);
            q == Progress(step.state, p.snapshots + [step.snapshot], step.halt, k + 1))
  {
    assert inputs[..k + 1][..k] == inputs[..k];
  }

  /** Once the pass has stopped, the records after it keep their fields and nothing else
      changes. */
  lemma {:induction false} LoopStopped(inputs: seq<Input>, i: nat, copyType: CopyType, interrupt: Interrupt,
                                       cameras: seq<CameraSetting>, env: Env, disk: Disk)
    requires i <= |inputs|
    requires i == |inputs| || !Loop(inputs[..i], copyType, interrupt, cameras, env, disk).halt.Going?
    ensures var p := Loop(inputs, copyType, interrupt, cameras, env, disk);
      var q := Loop(inputs[..i], copyType, interrupt, cameras, env, disk);
      && p.state == q.state && p.halt == q.halt && p.reached == q.reached
      && p.snapshots[..i] == q.snapshots
      && forall k | i <= k < |inputs| :: p.snapshots[k] == inputs[k].snapshot
    decreases |inputs|
  {
    hide Handle;
    if i < |inputs| {
      var n := |inputs| - 1;
      assert inputs[..n][..i] == inputs[..i];
      LoopStopped(inputs[..n], i, copyType, interrupt, cameras, env, disk);
    } else {
      assert inputs[..i] == inputs;
    }
  }

  /** The outcome of a run as its caller sees it: the final progress result and text, the
      file system, the drives ejected, the folder viewer starts, and an exception that
      escapes `Run` itself. */
  datatype RunResult = RunResult(result: StatusType, text: string, disk: Disk, ejected: set<string>,
                                 started: seq<Request>, escaped: Outcome)

  /** The final progress result of each ending. */
  function EndStatus(h: Halt): StatusType {
    match h
    case Going => StatusType.Ready
    case HaltCanceled(_) => StatusType.Canceled
    case HaltFailed(_) => StatusType.Failed
  }

  /** The final progress text: the megabyte text after a completed pass, the exception's
      message otherwise, then the summary. */
  function EndText(h: Halt, megabytes: string, summary: string): string {
    match h
    case Going => megabytes + " - " + summary
    case HaltCanceled(message) => message + " - " + summary
    case HaltFailed(message) => message + " - " + summary
  }

  /** The folders are opened when asked for and something was copied or moved. */
  predicate OpensFolders(openFoldersAfter: bool, c: Counts) {
    openFoldersAfter && (c.copied > 0 || c.moved > 0)
  }

  /** What holds after `i` records of the pass: the pass so far agrees with `Loop`, the
      records before `i` carry their new fields, and those from `i` on are untouched. */
  ghost predicate PassedTo(files: seq<CameraFileInfo>, inputs: seq<Input>, i: nat, snapshots: seq<Snapshot>,
                           state: State, halt: Halt, reached: nat, copyType: CopyType, interrupt: Interrupt,
                           cameras: seq<CameraSetting>, env: Env, disk: Disk)
    reads set f | f in files, set f | f in files && f.camera.Some? :: f.camera.value, set c | c in cameras
  {
    && i <= |files| == |inputs| && |snapshots| == i
    && Loop(inputs[..i], copyType, interrupt, cameras, env, disk) == Progress(state, snapshots, halt, reached)
    && (forall k | 0 <= k < i :: SnapshotOf(files[k]) == snapshots[k])
    && (forall k | i <= k < |files| :: SnapshotOf(files[k]) == inputs[k].snapshot && JobOf(files[k]) == inputs[k].job)
  }

  /** The cancellation check at the top of the loop body throws before record `i` is touched. */
  lemma PassedCancel(files: seq<CameraFileInfo>, inputs: seq<Input>, i: nat, snapshots: seq<Snapshot>, state: State,
                     reached: nat, copyType: CopyType, interrupt: Interrupt, cameras: seq<CameraSetting>, env: Env, disk: Disk)
    requires i < |files| && TopCancel(interrupt, i)
    requires PassedTo(files, inputs, i, snapshots, state, Going, reached, copyType, interrupt, cameras, env, disk)
    ensures PassedTo(files, inputs, i + 1, snapshots + [inputs[i].snapshot], state, HaltCanceled(CanceledMessage), i,
                     copyType, interrupt, cameras, env, disk)
  {
    hide Handle, InputOf, JobOf;
    LoopNext(inputs, i, copyType, interrupt, cameras, env, disk);
  }

  /** Record `i` of the `foreach` when no cancellation was observed before it. */
  method VisitRecord(files: seq<CameraFileInfo>, i: nat, copyType: CopyType, interrupt: Interrupt, state: State,
                     cameras: seq<CameraSetting>, env: Env, ghost disk: Disk, ghost inputs: seq<Input>,
                     ghost snapshots: seq<Snapshot>, ghost reached: nat)
    returns (next: State, halt: Halt, ghost snapshots': seq<Snapshot>)
    requires Distinct(files) && i < |files| && !TopCancel(interrupt, i)
    requires PassedTo(files, inputs, i, snapshots, state, Going, reached, copyType, interrupt, cameras, env, disk)
    modifies {files[i]}`selected, {files[i]}`status, {files[i]}`error
    ensures PassedTo(files, inputs, i + 1, snapshots', next, halt, i + 1, copyType, interrupt, cameras, env, disk)
  {
    hide Handle, Loop, InputOf, JobOf, SnapshotOf;
    LoopNext(inputs, i, copyType, interrupt, cameras, env, disk);
    var file := files[i];
    assert forall k | 0 <= k < |files| && k != i :: files[k] != file;
    assert InputOf(file) == inputs[i];
    next, halt := ProcessRecord(file, i, copyType, interrupt, state, cameras, env);
    snapshots' := snapshots + [SnapshotOf(file)];
  }

  /** Before the first record nothing has happened. */
  lemma PassedStart(files: seq<CameraFileInfo>, copyType: CopyType, interrupt: Interrupt, cameras: seq<CameraSetting>,
                    env: Env, disk: Disk)
    ensures PassedTo(files, Inputs(files), 0, [], Initial(disk), Going, 0, copyType, interrupt, cameras, env, disk)
  {
    hide Handle, Loop;
    LoopStart(Inputs(files), copyType, interrupt, cameras, env, disk);
  }

  /** When the pass stops, every record carries the field values `Loop` gives it. */
  lemma PassedEnd(files: seq<CameraFileInfo>, inputs: seq<Input>, i: nat, snapshots: seq<Snapshot>, state: State,
                  halt: Halt, reached: nat, copyType: CopyType, interrupt: Interrupt, cameras: seq<CameraSetting>,
                  env: Env, disk: Disk)
    requires PassedTo(files, inputs, i, snapshots, state, halt, reached, copyType, interrupt, cameras, env, disk)
    requires i == |files| || !halt.Going?
    ensures var p := Loop(inputs, copyType, interrupt, cameras, env, disk);
      && state == p.state && halt == p.halt
      && forall k | 0 <= k < |files| :: SnapshotOf(files[k]) == p.snapshots[k]
  {
    hide Handle, Loop, JobOf;
    LoopStopped(inputs, i, copyType, interrupt, cameras, env, disk);
  }

  /** One iteration of the `foreach`: the top-of-loop cancellation check, then the record. */
  method Visit(files: seq<CameraFileInfo>, i: nat, copyType: CopyType, interrupt: Interrupt, state: State,
               cameras: seq<CameraSetting>, env: Env, ghost disk: Disk, ghost inputs: seq<Input>,
               ghost snapshots: seq<Snapshot>, ghost reached: nat)
    returns (next: State, halt: Halt, ghost snapshots': seq<Snapshot>, ghost reached': nat)
    requires Distinct(files) && i < |files| == |inputs|
    requires PassedTo(files, inputs, i, snapshots, state, Going, reached, copyType, interrupt, cameras, env, disk)
    modifies {files[i]}`selected, {files[i]}`status, {files[i]}`error
    ensures PassedTo(files, inputs, i + 1, snapshots', next, halt, reached', copyType, interrupt, cameras, env, disk)
  {
    hide PassedTo;
    if TopCancel(interrupt, i) {
      PassedCancel(files, inputs, i, snapshots, state, reached, copyType, interrupt, cameras, env, disk);
      next, halt, snapshots', reached' := state, HaltCanceled(CanceledMessage), snapshots + [inputs[i].snapshot], i;
    } else {
      next, halt, snapshots' := VisitRecord(files, i, copyType, interrupt, state, cameras, env, disk, inputs, snapshots, reached);
      reached' := i + 1;
    }
  }

  /** The `foreach` over the records, up to the end of the list or the exception that
      stops it. */
  method Pass(files: seq<CameraFileInfo>, copyType: CopyType, interrupt: Interrupt,
              cameras: seq<CameraSetting>, env: Env, disk: Disk) returns (state: State, halt: Halt)
    requires Distinct(files)
    modifies (set f | f in files)`selected, (set f | f in files)`status, (set f | f in files)`error
    ensures var p := Loop(old(Inputs(files)), copyType, interrupt, cameras, env, disk);
      && state == p.state && halt == p.halt
      && forall k | 0 <= k < |files| :: SnapshotOf(files[k]) == p.snapshots[k]
  {
    hide Handle, Loop, InputOf, JobOf, PassedTo;
    ghost var inputs := Inputs(files);
    ghost var snapshots: seq<Snapshot> := [];
    ghost var reached := 0;
    state := Initial(disk);
    halt := Going;
    var i := 0;
    PassedStart(files, copyType, interrupt, cameras, env, disk);
    while i < |files| && halt.Going?
      invariant 0 <= i <= |files|
      invariant PassedTo(files, inputs, i, snapshots, state, halt, reached, copyType, interrupt, cameras, env, disk)
      decreases |files| - i
    {
      state, halt, snapshots, reached := Visit(files, i, copyType, interrupt, state, cameras, env, disk, inputs, snapshots, reached);
      i := i + 1;
    }
    PassedEnd(files, inputs, i, snapshots, state, halt, reached, copyType, interrupt, cameras, env, disk);
  }

  /** `Run`: the pass over the records, then on every ending the final progress report, the
      ejection of the collected drives and, when asked for, the opening of the folders.
      `megabytes` is the progress object's megabyte text at the end of the pass. */
  method Run(files: seq<CameraFileInfo>, copyType: CopyType, openFoldersAfter: bool, interrupt: Interrupt,
             megabytes: string, cameras: seq<CameraSetting>, env: Env, disk: Disk) returns (r: RunResult)
    requires Distinct(files)
    modifies (set f | f in files)`selected, (set f | f in files)`status, (set f | f in files)`error
    ensures var p := Loop(old(Inputs(files)), copyType, interrupt, cameras, env, disk);
      && (forall k | 0 <= k < |files| :: SnapshotOf(files[k]) == p.snapshots[k])
      && r.result == EndStatus(p.halt)
      && r.text == EndText(p.halt, megabytes, FinalCopiedText(p.state.counts))
      && r.disk == p.state.disk && r.ejected == p.state.eject
      && (if OpensFolders(openFoldersAfter, p.state.counts) then (r.started, r.escaped) == Launches(p.state.guard, 0, env)
          else r.started == [] && r.escaped == Done)
  {
    hide Handle, Loop, InputOf, JobOf, Launches, FinalCopiedText;
    ghost var inputs := Inputs(files);
    var state, halt := Pass(files, copyType, interrupt, cameras, env, disk);
    r := RunResult(EndStatus(halt), EndText(halt, megabytes, FinalCopiedText(state.counts)), state.disk, state.eject, [], Done);
    if OpensFolders(openFoldersAfter, state.counts) {
      var started, escaped := OpenFoldersAfter(state.guard, env);
      r := r.(started := started, escaped := escaped);
    }
  }
}
