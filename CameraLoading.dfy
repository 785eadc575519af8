/** The directory scanner (`CameraLoad.GetCameraFilesFromDirectory`): one record per
    candidate file, the removable-drive hint and camera inference, and the selected-first
    order of the returned list. */
module CameraLoading {
  import opened Wrappers
  import opened Text
  import opened Paths
  import opened Enumerations
  import opened Platform
  import opened CameraSettings
  import opened Configuration
  import opened CameraFiles

  /** The result and the text of the last progress report of a load. */
  datatype LoadReport = LoadReport(result: StatusType, text: string)

  /** The message of the exception `ThrowIfCancellationRequested` raises. */
  const CanceledMessage: string := "The operation was canceled."

  /** The message of the `NullReferenceException` a null extension list raises. */
  const NullReferenceMessage: string := "Object reference not set to an instance of an object."

  /** The message of the exception `new DirectoryInfo` raises for an empty path. */
  const EmptyPathMessage: string := "The path is empty. (Parameter 'path')"

  /** The report of the outer catch: every exception that reaches it comes from outside the
      tag library, so it reports Failed. */
  function Failure(message: string): (r: LoadReport)
    ensures r.result == StatusType.Failed
  {
    LoadReport(StatusType.Failed, "Loading failed: " + message)
  }

  /** The report of a load that ran to the end. */
  function LoadedText(loaded: nat, failed: nat, directoryPath: string): string {
    "Loaded " + NatToString(loaded) + " files " + (if failed > 0 then "and " + NatToString(failed) + " files failed" else "") +
      " from " + directoryPath
  }

  /** `isRemovableDrive`: some removable drive is named like the directory's path root. */
  predicate IsRemovableDrive(directoryPath: string, env: Env) {
    GetPathRoot(directoryPath).Some? && GetPathRoot(directoryPath).value in env.removableDrives
  }

  // ---- the candidate files ----

  /** The files of each extension in turn, in enumeration order, or the first enumeration's
      exception. The union keeps duplicates: it compares the file objects by reference, and
      each enumeration makes new ones. */
  function FilesOf(directoryPath: string, extensions: seq<string>, recursive: bool, env: Env): (r: Result<seq<string>>)
    ensures r.Ok? <==> forall k | 0 <= k < |extensions| :: env.enumerate(directoryPath, "*." + extensions[k], recursive).Ok?
    decreases |extensions|
  {
    if extensions == [] then Ok([])
    else
      match env.enumerate(directoryPath, "*." + extensions[0], recursive)
      case Fail(message) => Fail(message)
      case Ok(first) =>
        match FilesOf(directoryPath, extensions[1..], recursive, env)
        case Fail(message) => Fail(message)
        case Ok(rest) => Ok(first + rest)
  }

  /** A file is a candidate exactly when one of the extensions' enumerations lists it. */
  lemma {:induction false} FilesOfMembers(directoryPath: string, extensions: seq<string>, recursive: bool, env: Env, p: string)
    requires FilesOf(directoryPath, extensions, recursive, env).Ok?
    ensures p in FilesOf(directoryPath, extensions, recursive, env).value <==>
      exists k | 0 <= k < |extensions| :: p in env.enumerate(directoryPath, "*." + extensions[k], recursive).value
    decreases |extensions|
  {
    if extensions != [] {
      FilesOfMembers(directoryPath, extensions[1..], recursive, env, p);
      var first := env.enumerate(directoryPath, "*." + extensions[0], recursive).value;
      if p in FilesOf(directoryPath, extensions, recursive, env).value && p !in first {
        var k :| 0 <= k < |extensions[1..]| && p in env.enumerate(directoryPath, "*." + extensions[1..][k], recursive).value;
        assert extensions[1..][k] == extensions[k + 1];
      }
      if exists k | 0 <= k < |extensions| :: p in env.enumerate(directoryPath, "*." + extensions[k], recursive).value {
        var k :| 0 <= k < |extensions| && p in env.enumerate(directoryPath, "*." + extensions[k], recursive).value;
        if k > 0 {
          assert extensions[1..][k - 1] == extensions[k];
        }
      }
    }
  }

  /** The candidate files: the union over the space-separated extensions; a null extension
      list throws. */
  function Candidates(directoryPath: string, recursive: bool, extensions: Option<string>, env: Env): Result<seq<string>> {
    if extensions.Null? then Fail(NullReferenceMessage)
    else FilesOf(directoryPath, Split(extensions.value, ' '), recursive, env)
  }

  /** `files` followed by the outcome `rest`. */
  function Prepend(files: seq<string>, rest: Result<seq<string>>): Result<seq<string>> {
    match rest
    case Fail(message) => Fail(message)
    case Ok(tail) => Ok(files + tail)
  }

  lemma PrependNothing(rest: Result<seq<string>>)
    ensures Prepend([], rest) == rest
  {
    if rest.Ok? {
      assert [] + rest.value == rest.value;
    }
  }

  lemma PrependTwice(files: seq<string>, more: seq<string>, rest: Result<seq<string>>)
    ensures Prepend(files, Prepend(more, rest)) == Prepend(files + more, rest)
  {
    if rest.Ok? {
      assert files + (more + rest.value) == files + more + rest.value;
    }
  }

  /** The outcome from the `i`th extension on is that extension's files, then the rest's. */
  lemma FilesOfStep(directoryPath: string, extensions: seq<string>, i: nat, recursive: bool, env: Env)
    requires i < |extensions|
    ensures FilesOf(directoryPath, extensions[i..], recursive, env) ==
      match env.enumerate(directoryPath, "*." + extensions[i], recursive)
      case Fail(message) => Fail(message)
      case Ok(first) => Prepend(first, FilesOf(directoryPath, extensions[i + 1..], recursive, env))
  {
    assert extensions[i..][0] == extensions[i];
    assert extensions[i..][1..] == extensions[i + 1..];
  }

  /** The `ForEach` over the extensions, each step replacing `files` by its union with one
      more enumeration. */
  method CollectCandidates(directoryPath: string, recursive: bool, extensions: string, env: Env) returns (r: Result<seq<string>>)
    ensures r == Candidates(directoryPath, recursive, Some(extensions), env)
  {
    var patterns := Split(extensions, ' ');
    var files: seq<string> := [];
    var i := 0;
    assert patterns[i..] == patterns;
    PrependNothing(FilesOf(directoryPath, patterns, recursive, env));
    while i < |patterns|
      invariant 0 <= i <= |patterns|
      invariant FilesOf(directoryPath, patterns, recursive, env) == Prepend(files, FilesOf(directoryPath, patterns[i..], recursive, env))
    {
      var next := env.enumerate(directoryPath, "*." + patterns[i], recursive);
      FilesOfStep(directoryPath, patterns, i, recursive, env);
      if next.Fail? {
        return Fail(next.message);
      }
      PrependTwice(files, next.value, FilesOf(directoryPath, patterns[i + 1..], recursive, env));
      files := files + next.value;
      i := i + 1;
    }
    assert patterns[i..] == [];
    assert files + [] == files;
    r := Ok(files);
  }

  // ---- the removable-drive hint ----

  /** The profile named by the hint file on a removable drive: the only profile whose
      alias equals the hint.
      The hint is read once per profile, so with no profiles it is never read; with no
      hint file the comparison is against null. */
  function HintCamera(directoryPath: string, cameras: seq<CameraSetting>, disk: Disk): (r: Result<Option<CameraSetting>>)
    reads set c | c in cameras
    ensures cameras == [] ==> r == Ok(Null)
    ensures GetPersistedCamera(directoryPath, disk).Ok? ==> r == SingleWithAlias(cameras, GetPersistedCamera(directoryPath, disk).value)
    ensures r.Ok? && r.value.Some? ==>
      r.value.value in cameras && GetPersistedCamera(directoryPath, disk) == Ok(r.value.value.alias)
  {
    if cameras == [] then Ok(Null)
    else
      match GetPersistedCamera(directoryPath, disk)
      case Fail(message) => Fail(message)
      case Ok(alias) => SingleWithAlias(cameras, alias)
  }

  // ---- the records ----

  /** The paths whose flag is set, in order. */
  function Kept(paths: seq<string>, keep: seq<bool>): (r: seq<string>)
    requires |keep| == |paths|
    ensures |r| <= |paths|
    ensures forall p | p in r :: p in paths
  {
    if paths == [] then []
    else Kept(paths[..|paths| - 1], keep[..|keep| - 1]) + (if keep[|keep| - 1] then [paths[|paths| - 1]] else [])
  }

  /** One more path extends the kept ones by that path exactly when its flag is set. */
  lemma KeptStep(paths: seq<string>, keep: seq<bool>, path: string, flag: bool)
    requires |keep| == |paths|
    ensures Kept(paths + [path], keep + [flag]) == Kept(paths, keep) + (if flag then [path] else [])
  {
    assert (paths + [path])[..|paths|] == paths;
    assert (keep + [flag])[..|keep|] == keep;
  }

  /** The flags saying which of the paths the record constructor succeeds for. */
  predicate LoadableFlags(keep: seq<bool>, paths: seq<string>, given: Option<CameraSetting>, cameras: seq<CameraSetting>,
                          globalPriority: Option<string>, dateTimeFormat: Option<string>, env: Env, disk: Disk)
    reads set c | c in cameras, if given.Some? then {given.value} else {}
  {
    |keep| == |paths| &&
    forall j | 0 <= j < |paths| :: keep[j] == Loadable(paths[j], given, cameras, globalPriority, dateTimeFormat, env, disk)
  }

  /** How many files the loop reaches: all of them, or those before the file at which the
      cancellation is seen. */
  function Reached(count: nat, cancelBefore: Option<nat>): (n: nat)
    ensures n <= count
    ensures n < count <==> cancelBefore.Some? && cancelBefore.value < count
  {
    if cancelBefore.Some? && cancelBefore.value < count then cancelBefore.value else count
  }

  /** No record appears twice. */
  predicate Distinct(records: seq<CameraFileInfo>) {
    forall i, j | 0 <= i < j < |records| :: records[i] != records[j]
  }

  /** No paths, no flags. */
  lemma NoFlags(paths: seq<string>, given: Option<CameraSetting>, cameras: seq<CameraSetting>,
                globalPriority: Option<string>, dateTimeFormat: Option<string>, env: Env, disk: Disk)
    ensures LoadableFlags([], paths[..0], given, cameras, globalPriority, dateTimeFormat, env, disk)
  {
  }

  /** One more flag for one more path. */
  lemma LoadableFlagsStep(keep: seq<bool>, paths: seq<string>, i: nat, flag: bool, given: Option<CameraSetting>, cameras: seq<CameraSetting>,
                          globalPriority: Option<string>, dateTimeFormat: Option<string>, env: Env, disk: Disk)
    requires i < |paths|
    requires LoadableFlags(keep, paths[..i], given, cameras, globalPriority, dateTimeFormat, env, disk)
    requires flag == Loadable(paths[i], given, cameras, globalPriority, dateTimeFormat, env, disk)
    ensures paths[..i + 1] == paths[..i] + [paths[i]]
    ensures LoadableFlags(keep + [flag], paths[..i + 1], given, cameras, globalPriority, dateTimeFormat, env, disk)
  {
    assert paths[..i + 1] == paths[..i] + [paths[i]];
  }

  /** `info` is a record of the file at `sourcePath`. */
  predicate RecordOf(info: CameraFileInfo, sourcePath: string) {
    info.sourceDirectory == GetDirectoryName(sourcePath) && info.sourceFileName == GetFileName(sourcePath)
  }

  /** Each record is a record of the path beside it. */
  predicate RecordsOf(records: seq<CameraFileInfo>, sources: seq<string>) {
    |records| == |sources| && forall k | 0 <= k < |records| :: RecordOf(records[k], sources[k])
  }

  /** A record the constructor built is a record of its path. */
  lemma LoadedFromIsRecordOf(info: CameraFileInfo, sourcePath: string, root: Option<string>, given: Option<CameraSetting>,
                             cameras: seq<CameraSetting>, globalPriority: Option<string>, dateTimeFormat: Option<string>, env: Env, disk: Disk)
    requires LoadedFrom(info, sourcePath, root, given, cameras, globalPriority, dateTimeFormat, env, disk)
    ensures RecordOf(info, sourcePath)
  {
  }

  /** A record built with a fixed profile carries that profile. */
  lemma LoadedFromGiven(info: CameraFileInfo, sourcePath: string, root: Option<string>, given: Option<CameraSetting>,
                        cameras: seq<CameraSetting>, globalPriority: Option<string>, dateTimeFormat: Option<string>, env: Env, disk: Disk)
    requires LoadedFrom(info, sourcePath, root, given, cameras, globalPriority, dateTimeFormat, env, disk)
    ensures given.Some? ==> info.camera == given
  {
  }

  lemma NoRecords()
    ensures RecordsOf([], [])
  {
  }

  /** One more record of one more path. */
  lemma RecordsOfStep(records: seq<CameraFileInfo>, sources: seq<string>, info: CameraFileInfo, sourcePath: string)
    requires RecordsOf(records, sources) && RecordOf(info, sourcePath)
    ensures RecordsOf(records + [info], sources + [sourcePath])
  {
  }

  /** Each record is the one the constructor builds for the path beside it. */
  predicate LoadedRecords(records: seq<CameraFileInfo>, sources: seq<string>, root: Option<string>, given: Option<CameraSetting>,
                          cameras: seq<CameraSetting>, globalPriority: Option<string>, dateTimeFormat: Option<string>, env: Env, disk: Disk)
    reads set f | f in records, set f | f in records && f.camera.Some? :: f.camera.value
    reads set c | c in cameras, if given.Some? then {given.value} else {}
  {
    |records| == |sources| &&
    forall k | 0 <= k < |records| :: LoadedFrom(records[k], sources[k], root, given, cameras, globalPriority, dateTimeFormat, env, disk)
  }

  /** No records, no paths. */
  lemma NoLoadedRecords(root: Option<string>, given: Option<CameraSetting>, cameras: seq<CameraSetting>,
                        globalPriority: Option<string>, dateTimeFormat: Option<string>, env: Env, disk: Disk)
    ensures LoadedRecords([], [], root, given, cameras, globalPriority, dateTimeFormat, env, disk)
  {
  }

  /** Records of the constructor stay so when a record the constructor built is appended. */
  lemma LoadedRecordsStep(records: seq<CameraFileInfo>, next: seq<CameraFileInfo>, sources: seq<string>, path: string, ok: bool,
                          root: Option<string>, given: Option<CameraSetting>, cameras: seq<CameraSetting>, globalPriority: Option<string>,
                          dateTimeFormat: Option<string>, env: Env, disk: Disk)
    requires LoadedRecords(records, sources, root, given, cameras, globalPriority, dateTimeFormat, env, disk)
    requires |next| == |records| + (if ok then 1 else 0) && next[..|records|] == records
    requires ok ==> LoadedFrom(next[|records|], path, root, given, cameras, globalPriority, dateTimeFormat, env, disk)
    ensures LoadedRecords(next, sources + (if ok then [path] else []), root, given, cameras, globalPriority, dateTimeFormat, env, disk)
  {
    hide LoadedFrom;
    forall k | 0 <= k < |records| ensures next[k] == records[k] {
      assert next[k] == next[..|records|][k];
    }
  }

  /** The body of the `foreach` for one file: a record for it is added, or the failure is
      counted. */
  method LoadOne(records: seq<CameraFileInfo>, path: string, root: string, given: Option<CameraSetting>,
                 cameras: seq<CameraSetting>, globalPriority: Option<string>, dateTimeFormat: Option<string>, env: Env, disk: Disk)
    returns (next: seq<CameraFileInfo>, ok: bool)
    requires Distinct(records)
    ensures ok == old(Loadable(path, given, cameras, globalPriority, dateTimeFormat, env, disk))
    ensures |next| == |records| + (if ok then 1 else 0) && next[..|records|] == records
    ensures Distinct(next)
    ensures ok ==> fresh(next[|records|]) && RecordOf(next[|records|], path)
    ensures ok ==> LoadedFrom(next[|records|], path, Some(root), given, cameras, globalPriority, dateTimeFormat, env, disk)
    ensures ok && given.Some? ==> next[|records|].camera == given
  {
    hide Loadable, LoadedFrom;
    var record := NewCameraFileInfo(path, Some(root), given, cameras, globalPriority, dateTimeFormat, env, disk);
    if record.Ok? {
      assert record.value !in records;
      LoadedFromIsLoadable(record.value, path, Some(root), given, cameras, globalPriority, dateTimeFormat, env, disk);
      LoadedFromIsRecordOf(record.value, path, Some(root), given, cameras, globalPriority, dateTimeFormat, env, disk);
      LoadedFromGiven(record.value, path, Some(root), given, cameras, globalPriority, dateTimeFormat, env, disk);
      next, ok := records + [record.value], true;
    } else {
      next, ok := records, false;
    }
  }

  /** The `foreach` over the candidate files: the cancellation is checked before each file;
      a file whose record cannot be built is counted as failed and the loop goes on. The
      records are new, one per loadable path reached, in order; `loadable` says which of
      the reached paths are loadable. */
  method LoadRecords(paths: seq<string>, root: string, given: Option<CameraSetting>, cameras: seq<CameraSetting>,
                     globalPriority: Option<string>, dateTimeFormat: Option<string>, cancelBefore: Option<nat>, env: Env, disk: Disk)
    returns (records: seq<CameraFileInfo>, loaded: nat, failed: nat, canceled: bool, ghost loadable: seq<bool>)
    ensures canceled <==> Reached(|paths|, cancelBefore) < |paths|
    ensures loaded + failed == Reached(|paths|, cancelBefore)
    ensures LoadableFlags(loadable, paths[..Reached(|paths|, cancelBefore)], given, cameras, globalPriority, dateTimeFormat, env, disk)
    ensures loaded == |records|
    ensures RecordsOf(records, Kept(paths[..Reached(|paths|, cancelBefore)], loadable))
    ensures forall k | 0 <= k < |records| :: fresh(records[k])
    ensures Distinct(records)
    ensures given.Some? ==> forall k | 0 <= k < |records| :: records[k].camera == given
    ensures LoadedRecords(records, Kept(paths[..Reached(|paths|, cancelBefore)], loadable), Some(root), given, cameras,
                          globalPriority, dateTimeFormat, env, disk)
  {
    hide Loadable, LoadableFlags, RecordsOf, RecordOf, Kept, LoadedFrom, LoadedRecords;
    records, loaded, failed, canceled, loadable := [], 0, 0, false, [];
    NoFlags(paths, given, cameras, globalPriority, dateTimeFormat, env, disk);
    NoRecords();
    NoLoadedRecords(Some(root), given, cameras, globalPriority, dateTimeFormat, env, disk);
    var i := 0;
    assert Kept(paths[..i], loadable) == [];
    while i < |paths|
      invariant 0 <= i <= |paths|
      invariant i <= Reached(|paths|, cancelBefore)
      invariant loaded + failed == i && loaded == |records|
      invariant |loadable| == i
      invariant LoadableFlags(loadable, paths[..i], given, cameras, globalPriority, dateTimeFormat, env, disk)
      invariant RecordsOf(records, Kept(paths[..i], loadable))
      invariant forall k | 0 <= k < |records| :: fresh(records[k])
      invariant Distinct(records)
      invariant given.Some? ==> forall k | 0 <= k < |records| :: records[k].camera == given
      invariant LoadedRecords(records, Kept(paths[..i], loadable), Some(root), given, cameras, globalPriority, dateTimeFormat, env, disk)
      invariant !canceled
    {
      if cancelBefore == Some(i) {
        canceled := true;
        break;
      }
      ghost var flag := Loadable(paths[i], given, cameras, globalPriority, dateTimeFormat, env, disk);
      LoadableFlagsStep(loadable, paths, i, flag, given, cameras, globalPriority, dateTimeFormat, env, disk);
      var next, ok := LoadOne(records, paths[i], root, given, cameras, globalPriority, dateTimeFormat, env, disk);
      forall k | 0 <= k < |next| ensures fresh(next[k]) {
        if k < |records| {
          assert next[k] == next[..|records|][k];
        }
      }
      forall k | 0 <= k < |next| && given.Some? ensures next[k].camera == given {
        if k < |records| {
          assert next[k] == next[..|records|][k];
        }
      }
      KeptStep(paths[..i], loadable, paths[i], ok);
      assert paths[..i + 1] == paths[..i] + [paths[i]];
      LoadedRecordsStep(records, next, Kept(paths[..i], loadable), paths[i], ok, Some(root), given, cameras,
                        globalPriority, dateTimeFormat, env, disk);
      if ok {
        assert next == records + [next[|records|]];
        RecordsOfStep(records, Kept(paths[..i], loadable), next[|records|], paths[i]);
        loaded := loaded + 1;
      } else {
        assert next == records;
        assert Kept(paths[..i], loadable) + [] == Kept(paths[..i], loadable);
        failed := failed + 1;
      }
      records, loadable := next, loadable + [ok];
      i := i + 1;
    }
    if !canceled {
      assert paths[..i] == paths;
    }
  }

  // ---- camera inference on a removable drive ----

  /** The message of `SingleOrDefault` on a sequence with two or more elements. */
  const MoreThanOneMessage: string := "Sequence contains more than one element"

  /** The record has a profile with a non-blank alias. */
  predicate Known(f: CameraFileInfo)
    reads f`camera, if f.camera.Some? then {f.camera.value} else {}
  {
    !IsNullOrWhiteSpace(f.Alias())
  }

  /** The profiles of the records with a non-blank alias, in list order. */
  function KnownCameras(files: seq<CameraFileInfo>): (r: seq<CameraSetting>)
    reads set f | f in files, set f | f in files && f.camera.Some? :: f.camera.value
    ensures forall c | c in r :: exists k | 0 <= k < |files| :: Known(files[k]) && files[k].camera == Some(c)
    ensures forall k | 0 <= k < |files| && Known(files[k]) :: files[k].camera.Some? && files[k].camera.value in r
  {
    if files == [] then []
    else
      var rest := KnownCameras(files[1..]);
      assert forall k | 1 <= k < |files| :: files[1..][k - 1] == files[k];
      (if Known(files[0]) then [files[0].camera.value] else []) + rest
  }

  /** The one profile the known records carry: no profile when no record is known, the one profile when every known record carries the same one (by
      reference), and otherwise the exception of asking for a single one. */
  function SingleKnownCamera(files: seq<CameraFileInfo>): (r: Result<Option<CameraSetting>>)
    reads set f | f in files, set f | f in files && f.camera.Some? :: f.camera.value
    ensures r == Ok(Null) <==> forall k | 0 <= k < |files| :: !Known(files[k])
    ensures r.Ok? && r.value.Some? ==>
      (exists k | 0 <= k < |files| :: Known(files[k])) &&
      forall k | 0 <= k < |files| && Known(files[k]) :: files[k].camera == r.value
    ensures r.Fail? <==> r == Fail(MoreThanOneMessage)
    ensures r.Fail? <==> exists i, j | 0 <= i < |files| && 0 <= j < |files| ::
      Known(files[i]) && Known(files[j]) && files[i].camera != files[j].camera
  {
    var cs := KnownCameras(files);
    if cs == [] then Ok(Null)
    else if forall c | c in cs :: c == cs[0] then Ok(Some(cs[0]))
    else
      KnownCamerasDiffer(files);
      Fail(MoreThanOneMessage)
  }

  /** Two different profiles among the known ones come from two known records. */
  lemma KnownCamerasDiffer(files: seq<CameraFileInfo>)
    requires exists c | c in KnownCameras(files) :: c != KnownCameras(files)[0]
    ensures exists i, j | 0 <= i < |files| && 0 <= j < |files| ::
      Known(files[i]) && Known(files[j]) && files[i].camera != files[j].camera
  {
    var cs := KnownCameras(files);
    var c :| c in cs && c != cs[0];
    var i :| 0 <= i < |files| && Known(files[i]) && files[i].camera == Some(c);
    var j :| 0 <= j < |files| && Known(files[j]) && files[j].camera == Some(cs[0]);
  }

  /** The records with a blank alias, in list order. */
  function Unknown(files: seq<CameraFileInfo>): (r: seq<CameraFileInfo>)
    reads set f | f in files, set f | f in files && f.camera.Some? :: f.camera.value
    ensures forall f | f in r :: f in files && !Known(f)
    ensures forall f | f in files && !Known(f) :: f in r
    ensures Distinct(files) ==> Distinct(r)
  {
    if files == [] then []
    else
      var rest := Unknown(files[1..]);
      assert forall f | f in files[1..] :: f in files;
      assert Distinct(files) ==> files[0] !in files[1..];
      (if Known(files[0]) then [] else [files[0]]) + rest
  }

  /** The record carries `camera` and, when the destination can be derived with it, the
      directory, file name, Selected and Move the Camera setter derives from it, Selected
      from the file at the record's own source path. */
  predicate Took(f: CameraFileInfo, camera: CameraSetting, globalPriority: Option<string>, dateTimeFormat: Option<string>,
                 env: Env, disk: Disk)
    reads f, camera
  {
    && f.camera == Some(camera)
    && (DestinationPlan(f.fileAttributes, Some(camera), globalPriority, dateTimeFormat, env).Ok? ==>
          f.Placed(DestinationPlan(f.fileAttributes, Some(camera), globalPriority, dateTimeFormat, env).value, disk, IsReadOnly(disk, f.Source())))
  }

  /** Setting the profile of one unknown record: the profile is set, and the destination
      is derived again; when that throws, the directory, file name, Selected and Move stay
      as they were. */
  method GiveCamera(file: CameraFileInfo, camera: CameraSetting, globalPriority: Option<string>, dateTimeFormat: Option<string>,
                    env: Env, disk: Disk)
    returns (outcome: Outcome)
    modifies file`camera, file`destinationDirectory, file`destinationFileName, file`selected, file`move
    ensures Took(file, camera, globalPriority, dateTimeFormat, env, disk)
    ensures outcome.Raised? <==> DestinationPlan(file.fileAttributes, Some(camera), globalPriority, dateTimeFormat, env).Fail?
    ensures DestinationPlan(file.fileAttributes, Some(camera), globalPriority, dateTimeFormat, env).Fail? ==>
      outcome == Raised(DestinationPlan(file.fileAttributes, Some(camera), globalPriority, dateTimeFormat, env).message) &&
      file.Placement() == old(file.Placement())
  {
    outcome := file.SetCamera(Some(camera), globalPriority, dateTimeFormat, env, disk);
  }

  /** The inference after the loop: when some records are known and all known records share
      one profile, each unknown record is given that profile, one after the other; the first
      assignment that throws stops the rest. Known records are never touched, every profile
      that changes is the shared one, a record whose profile changes has its destination
      derived again, and a record whose profile stays is untouched. Status and error are
      never changed. */
  method InferCameras(files: seq<CameraFileInfo>, globalPriority: Option<string>, dateTimeFormat: Option<string>, env: Env, disk: Disk)
    returns (outcome: Outcome)
    requires Distinct(files)
    modifies set f | f in files
    ensures old(SingleKnownCamera(files)).Fail? ==> outcome == Raised(MoreThanOneMessage)
    ensures old(SingleKnownCamera(files)) == Ok(Null) ==> outcome == Done
    ensures old(SingleKnownCamera(files)).Ok? && old(SingleKnownCamera(files)).value.Some? && outcome == Done ==>
      forall k | 0 <= k < |files| :: files[k].camera == old(SingleKnownCamera(files)).value
    ensures forall k | 0 <= k < |files| && old(Known(files[k])) :: unchanged(files[k])
    ensures forall k | 0 <= k < |files| && files[k].camera != old(files[k].camera) ::
      files[k].camera.Some? && old(SingleKnownCamera(files)) == Ok(files[k].camera)
    ensures forall k | 0 <= k < |files| ::
      && files[k].fileAttributes == old(files[k].fileAttributes)
      && files[k].status == old(files[k].status) && files[k].error == old(files[k].error)
    ensures forall k | 0 <= k < |files| && files[k].camera != old(files[k].camera) ::
      && files[k].camera.Some?
      && Took(files[k], files[k].camera.value, globalPriority, dateTimeFormat, env, disk)
      && (SetterOutcome(files[k], files[k].camera.value, globalPriority, dateTimeFormat, env).Raised? ==>
            files[k].Placement() == old(files[k].Placement()))
    ensures forall k | 0 <= k < |files| && files[k].camera == old(files[k].camera) :: unchanged(files[k])
    ensures outcome.Done? ==> forall k | 0 <= k < |files| && files[k].camera != old(files[k].camera) ::
      files[k].camera.Some? && SetterOutcome(files[k], files[k].camera.value, globalPriority, dateTimeFormat, env) == Done
    ensures outcome.Raised? ==>
      || old(SingleKnownCamera(files)).Fail?
      || exists k | 0 <= k < |files| ::
           && files[k].camera != old(files[k].camera) && files[k].camera.Some?
           && outcome == SetterOutcome(files[k], files[k].camera.value, globalPriority, dateTimeFormat, env)
  {
    hide Known, SingleKnownCamera, KnownCameras, Unknown, DestinationPlan, DestinationPath, CameraFileInfo.Placed, CameraFileInfo.Placement, Took, SetterOutcome;
    var single := SingleKnownCamera(files);
    if single.Fail? {
      return Raised(single.message);
    }
    if single.value.Null? {
      return Done;
    }
    var camera := single.value.value;
    var unknown := Unknown(files);
    ghost var sharer :| 0 <= sharer < |files| && Known(files[sharer]) && files[sharer].camera == Some(camera);
    forall f | f in unknown ensures old(f.camera) != Some(camera) {
      UnknownLacksShared(f, files[sharer], camera);
    }
    ghost var handled;
    outcome, handled := GiveCameraToAll(unknown, camera, globalPriority, dateTimeFormat, env, disk);
    forall k | 0 <= k < |files|
      ensures files[k].camera != old(files[k].camera) ==>
        && files[k].camera == Some(camera)
        && Took(files[k], camera, globalPriority, dateTimeFormat, env, disk)
        && (SetterOutcome(files[k], camera, globalPriority, dateTimeFormat, env).Raised? ==>
              files[k].Placement() == old(files[k].Placement()))
      ensures files[k].camera == old(files[k].camera) ==> unchanged(files[k])
      ensures outcome.Done? && files[k].camera != old(files[k].camera) ==>
        SetterOutcome(files[k], camera, globalPriority, dateTimeFormat, env) == Done
      ensures files[k].status == old(files[k].status) && files[k].error == old(files[k].error)
      ensures files[k].fileAttributes == old(files[k].fileAttributes)
    {
      if files[k] in unknown {
        var j :| 0 <= j < |unknown| && unknown[j] == files[k];
        if j < handled {
          assert files[k].camera != old(files[k].camera);
        }
      } else {
        assert files[k] !in set f | f in unknown;
      }
    }
    if outcome.Raised? {
      ghost var f := unknown[handled - 1];
      assert f in unknown;
      ghost var k :| 0 <= k < |files| && files[k] == f;
      assert files[k].camera != old(files[k].camera);
    }
  }

  /** A record with a blank alias does not carry the profile of a record with a non-blank one. */
  lemma UnknownLacksShared(f: CameraFileInfo, g: CameraFileInfo, camera: CameraSetting)
    requires !Known(f) && Known(g) && g.camera == Some(camera)
    ensures f.camera != Some(camera)
  {
  }

  /** What the Camera setter raises when it gives the record `camera`: the exception of
      deriving the destination, or nothing. */
  function SetterOutcome(f: CameraFileInfo, camera: CameraSetting, globalPriority: Option<string>,
                         dateTimeFormat: Option<string>, env: Env): Outcome
    reads f, camera
  {
    match DestinationPlan(f.fileAttributes, Some(camera), globalPriority, dateTimeFormat, env)
    case Fail(message) => Raised(message)
    case Ok(_) => Done
  }

  /** Each unknown record in turn is given the profile; the first assignment that throws stops
      the rest. `handled` counts the records the loop reached: each of them took the profile
      and kept its attributes, status and error; only the last of them can have thrown, and
      then its directory, file name, Selected and Move are as they were; the records after
      it are untouched. */
  method GiveCameraToAll(unknown: seq<CameraFileInfo>, camera: CameraSetting, globalPriority: Option<string>,
                         dateTimeFormat: Option<string>, env: Env, disk: Disk)
    returns (outcome: Outcome, ghost handled: nat)
    requires Distinct(unknown)
    modifies set f | f in unknown
    ensures handled <= |unknown|
    ensures outcome.Done? ==> handled == |unknown|
    ensures outcome.Raised? ==>
      && 0 < handled
      && outcome == SetterOutcome(unknown[handled - 1], camera, globalPriority, dateTimeFormat, env)
      && unknown[handled - 1].Placement() == old(unknown[handled - 1].Placement())
    ensures forall j | 0 <= j < handled && (outcome.Done? || j < handled - 1) ::
      SetterOutcome(unknown[j], camera, globalPriority, dateTimeFormat, env) == Done
    ensures forall j | 0 <= j < handled ::
      && unknown[j].camera == Some(camera)
      && Took(unknown[j], camera, globalPriority, dateTimeFormat, env, disk)
      && unknown[j].fileAttributes == old(unknown[j].fileAttributes)
      && unknown[j].status == old(unknown[j].status) && unknown[j].error == old(unknown[j].error)
    ensures forall j | handled <= j < |unknown| :: unchanged(unknown[j])
    ensures outcome.Done? ==> forall j | 0 <= j < |unknown| :: unknown[j].camera == Some(camera)
    ensures forall j | 0 <= j < |unknown| :: unknown[j].camera == old(unknown[j].camera) || unknown[j].camera == Some(camera)
  {
    hide DestinationPlan, DestinationPath, CameraFileInfo.Placed, CameraFileInfo.Placement, SetterOutcome;
    outcome, handled := Done, 0;
    var i := 0;
    while i < |unknown| && outcome.Done?
      invariant i <= |unknown| && handled == i
      invariant outcome.Raised? ==>
        && 0 < i
        && outcome == SetterOutcome(unknown[i - 1], camera, globalPriority, dateTimeFormat, env)
        && unknown[i - 1].Placement() == old(unknown[i - 1].Placement())
      invariant forall j | 0 <= j < i && (outcome.Done? || j < i - 1) ::
        SetterOutcome(unknown[j], camera, globalPriority, dateTimeFormat, env) == Done
      invariant forall j | 0 <= j < i ::
        && Took(unknown[j], camera, globalPriority, dateTimeFormat, env, disk)
        && unknown[j].fileAttributes == old(unknown[j].fileAttributes)
        && unknown[j].status == old(unknown[j].status) && unknown[j].error == old(unknown[j].error)
      invariant forall j | i <= j < |unknown| :: unchanged(unknown[j])
    {
      outcome := GiveCameraAt(unknown, i, unknown[i], camera, globalPriority, dateTimeFormat, env, disk);
      i, handled := i + 1, handled + 1;
    }
  }

  /** The body of that loop: the record at `i` is given the profile and no other record changes. */
  method GiveCameraAt(unknown: seq<CameraFileInfo>, i: nat, file: CameraFileInfo, camera: CameraSetting,
                      globalPriority: Option<string>, dateTimeFormat: Option<string>, env: Env, disk: Disk)
    returns (outcome: Outcome)
    requires Distinct(unknown) && i < |unknown| && file == unknown[i]
    modifies file`camera, file`destinationDirectory, file`destinationFileName, file`selected, file`move
    ensures Took(file, camera, globalPriority, dateTimeFormat, env, disk)
    ensures outcome == SetterOutcome(file, camera, globalPriority, dateTimeFormat, env)
    ensures outcome.Raised? ==> file.Placement() == old(file.Placement())
    ensures forall j | 0 <= j < |unknown| && j != i :: unchanged(unknown[j])
  {
    outcome := GiveCamera(file, camera, globalPriority, dateTimeFormat, env, disk);
    forall j | 0 <= j < |unknown| && j != i ensures unchanged(unknown[j]) {
      assert unknown[j] != file;
    }
  }

  // ---- the selected-first order ----

  /** Every selected record precedes every unselected one. */
  predicate SelectedFirst(records: seq<CameraFileInfo>)
    reads set f | f in records
  {
    forall i, j | 0 <= i < j < |records| :: records[j].selected ==> records[i].selected
  }

  /** The sort by selection, selected records first: the records are rearranged in place so that the selected ones come first. The sort is not stable, so
      no order within the two groups is promised; this rearrangement is one of the orders
      it may produce. */
  method SortSelectedFirst(a: array<CameraFileInfo>)
    modifies a
    ensures SelectedFirst(a[..])
    ensures multiset(a[..]) == multiset(old(a[..]))
  {
    var next := 0;
    for i := 0 to a.Length
      invariant 0 <= next <= i
      invariant forall k | 0 <= k < next :: a[k].selected
      invariant forall k | next <= k < i :: !a[k].selected
      invariant multiset(a[..]) == multiset(old(a[..]))
    {
      if a[i].selected {
        Swap(a, next, i);
        next := next + 1;
      }
    }
  }

  /** Exchanges two entries of the array. */
  method Swap(a: array<CameraFileInfo>, i: nat, j: nat)
    requires i < a.Length && j < a.Length
    modifies a
    ensures a[..] == old(a[..])[i := old(a[j])][j := old(a[i])]
    ensures multiset(a[..]) == multiset(old(a[..]))
  {
    a[i], a[j] := a[j], a[i];
  }

  /** The records in selected-first order, through the list's in-place sort. */
  method SortedSelectedFirst(records: seq<CameraFileInfo>) returns (files: seq<CameraFileInfo>)
    ensures SelectedFirst(files)
    ensures multiset(files) == multiset(records)
    ensures |files| == |records|
  {
    var a := new CameraFileInfo[|records|](i requires 0 <= i < |records| => records[i]);
    assert a[..] == records;
    SortSelectedFirst(a);
    files := a[..];
    assert |multiset(files)| == |multiset(records)|;
  }

  // ---- the whole scan ----

  /** The paths the record constructor succeeds for, in order. */
  function LoadablePaths(paths: seq<string>, given: Option<CameraSetting>, cameras: seq<CameraSetting>,
                         globalPriority: Option<string>, dateTimeFormat: Option<string>, env: Env, disk: Disk): (r: seq<string>)
    reads set c | c in cameras, if given.Some? then {given.value} else {}
    ensures |r| <= |paths|
  {
    if paths == [] then []
    else
      var last := paths[|paths| - 1];
      LoadablePaths(paths[..|paths| - 1], given, cameras, globalPriority, dateTimeFormat, env, disk) +
        (if Loadable(last, given, cameras, globalPriority, dateTimeFormat, env, disk) then [last] else [])
  }

  /** A path is among the loadable paths exactly when it is one of the paths and the record
      constructor succeeds for it. */
  lemma {:induction false} LoadablePathsMembers(paths: seq<string>, given: Option<CameraSetting>, cameras: seq<CameraSetting>,
                                                globalPriority: Option<string>, dateTimeFormat: Option<string>, env: Env, disk: Disk, p: string)
    ensures p in LoadablePaths(paths, given, cameras, globalPriority, dateTimeFormat, env, disk) <==>
      p in paths && Loadable(p, given, cameras, globalPriority, dateTimeFormat, env, disk)
    decreases |paths|
  {
    hide Loadable;
    if paths != [] {
      var init := paths[..|paths| - 1];
      LoadablePathsMembers(init, given, cameras, globalPriority, dateTimeFormat, env, disk, p);
      assert paths == init + [paths[|paths| - 1]];
    }
  }

  /** The paths kept by the loop's flags are the loadable ones. */
  lemma {:induction false} KeptLoadable(keep: seq<bool>, paths: seq<string>, given: Option<CameraSetting>, cameras: seq<CameraSetting>,
                                        globalPriority: Option<string>, dateTimeFormat: Option<string>, env: Env, disk: Disk)
    requires LoadableFlags(keep, paths, given, cameras, globalPriority, dateTimeFormat, env, disk)
    ensures Kept(paths, keep) == LoadablePaths(paths, given, cameras, globalPriority, dateTimeFormat, env, disk)
    decreases |paths|
  {
    if paths != [] {
      var n := |paths| - 1;
      assert LoadableFlags(keep[..n], paths[..n], given, cameras, globalPriority, dateTimeFormat, env, disk);
      KeptLoadable(keep[..n], paths[..n], given, cameras, globalPriority, dateTimeFormat, env, disk);
    }
  }

  /** What the scan finds before its loop: the candidate files and the profile every record
      is given, or the exception that ends it. The directory object throws on an empty path;
      the hint is looked up only when there are candidates on a removable drive. */
  function Scan(directoryPath: string, recursive: bool, extensions: Option<string>, cameras: seq<CameraSetting>, env: Env, disk: Disk)
    : (r: Result<(seq<string>, Option<CameraSetting>)>)
    reads set c | c in cameras
  {
    if IsEffectivelyEmpty(directoryPath) then Fail(EmptyPathMessage)
    else
      match Candidates(directoryPath, recursive, extensions, env)
      case Fail(message) => Fail(message)
      case Ok(paths) =>
        if paths != [] && IsRemovableDrive(directoryPath, env) then
          match HintCamera(directoryPath, cameras, disk)
          case Fail(message) => Fail(message)
          case Ok(given) => Ok((paths, given))
        else Ok((paths, Null))
  }

  /** The scan fails on an empty path and with the candidates' exception; otherwise its
      files are the candidates, and a profile is given only on a removable drive whose hint
      names it. */
  lemma ScanProperties(directoryPath: string, recursive: bool, extensions: Option<string>, cameras: seq<CameraSetting>, env: Env, disk: Disk)
    ensures IsEffectivelyEmpty(directoryPath) ==> Scan(directoryPath, recursive, extensions, cameras, env, disk) == Fail(EmptyPathMessage)
    ensures !IsEffectivelyEmpty(directoryPath) && Candidates(directoryPath, recursive, extensions, env).Fail? ==>
      Scan(directoryPath, recursive, extensions, cameras, env, disk) == Fail(Candidates(directoryPath, recursive, extensions, env).message)
    ensures Scan(directoryPath, recursive, extensions, cameras, env, disk).Ok? ==>
      Candidates(directoryPath, recursive, extensions, env) == Ok(Scan(directoryPath, recursive, extensions, cameras, env, disk).value.0)
    ensures Scan(directoryPath, recursive, extensions, cameras, env, disk).Ok? && Scan(directoryPath, recursive, extensions, cameras, env, disk).value.1.Some? ==>
      var given := Scan(directoryPath, recursive, extensions, cameras, env, disk).value.1.value;
      IsRemovableDrive(directoryPath, env) && given in cameras && GetPersistedCamera(directoryPath, disk) == Ok(given.alias)
  {
  }

  /** The part of the scan before its loop. */
  method Prepare(directoryPath: string, recursive: bool, extensions: Option<string>, cameras: seq<CameraSetting>, env: Env, disk: Disk)
    returns (scan: Result<(seq<string>, Option<CameraSetting>)>)
    ensures scan == Scan(directoryPath, recursive, extensions, cameras, env, disk)
  {
    if IsEffectivelyEmpty(directoryPath) {
      return Fail(EmptyPathMessage);
    }
    var candidates: Result<seq<string>>;
    if extensions.Null? {
      candidates := Fail(NullReferenceMessage);
    } else {
      candidates := CollectCandidates(directoryPath, recursive, extensions.value, env);
    }
    if candidates.Fail? {
      return Fail(candidates.message);
    }
    var given: Option<CameraSetting> := Null;
    if candidates.value != [] && IsRemovableDrive(directoryPath, env) {
      var hint := HintCamera(directoryPath, cameras, disk);
      if hint.Fail? {
        return Fail(hint.message);
      }
      given := hint.value;
    }
    scan := Ok((candidates.value, given));
  }

  /** The loop over the candidates and, on a removable drive, the inference; the report is
      Failed with the exception's message when the cancellation or the inference throws.
      Every record is the constructor's record of a loadable path, in order, or such a
      record the inference gave the shared profile. */
  method LoadAndInfer(paths: seq<string>, directoryPath: string, given: Option<CameraSetting>, removable: bool, cameras: seq<CameraSetting>,
                      globalPriority: Option<string>, dateTimeFormat: Option<string>, cancelBefore: Option<nat>, env: Env, disk: Disk)
    returns (records: seq<CameraFileInfo>, report: LoadReport)
    ensures forall k | 0 <= k < |records| :: fresh(records[k])
    ensures RecordsOf(records, LoadablePaths(paths[..Reached(|paths|, cancelBefore)], given, cameras, globalPriority, dateTimeFormat, env, disk))
    ensures LoadedOrInferred(records, LoadablePaths(paths[..Reached(|paths|, cancelBefore)], given, cameras, globalPriority, dateTimeFormat, env, disk),
                             Some(directoryPath), given, cameras, removable, report.result == StatusType.Success,
                             globalPriority, dateTimeFormat, env, disk)
    ensures |records| <= Reached(|paths|, cancelBefore)
    ensures report.result == StatusType.Success || report.result == StatusType.Failed
    ensures Reached(|paths|, cancelBefore) < |paths| ==> report == Failure(CanceledMessage)
    ensures report.result == StatusType.Failed && Reached(|paths|, cancelBefore) == |paths| ==> removable
    ensures report.result == StatusType.Success ==> report.text == LoadedText(|records|, |paths| - |records|, directoryPath)
    ensures given.Some? ==> forall k | 0 <= k < |records| :: records[k].camera == given
    ensures report.result == StatusType.Success && removable && (exists k | 0 <= k < |records| :: Known(records[k])) ==>
      forall i, j | 0 <= i < |records| && 0 <= j < |records| :: records[i].camera == records[j].camera
  {
    hide Loadable, LoadedFrom, LoadablePaths, LoadableFlags, DestinationPlan, DestinationPath, Took, SetterOutcome,
      LoadedRecords, LoadedOrInferred, Known, SingleKnownCamera;
    var loaded, failed, canceled;
    ghost var loadable;
    records, loaded, failed, canceled, loadable :=
      LoadRecords(paths, directoryPath, given, cameras, globalPriority, dateTimeFormat, cancelBefore, env, disk);
    KeptLoadable(loadable, paths[..Reached(|paths|, cancelBefore)], given, cameras, globalPriority, dateTimeFormat, env, disk);
    ghost var sources := LoadablePaths(paths[..Reached(|paths|, cancelBefore)], given, cameras, globalPriority, dateTimeFormat, env, disk);
    if canceled {
      report := Failure(CanceledMessage);
      LoadedAreLoadedOrInferred(records, sources, Some(directoryPath), given, cameras, removable, false,
                                globalPriority, dateTimeFormat, env, disk);
      return;
    }
    report := InferLoaded(records, sources, loaded, failed, directoryPath, given, removable, cameras, globalPriority, dateTimeFormat, env, disk);
  }

  /** After a loop that ran to the end over records of the constructor: the inference and
      the report. Each record is still the constructor's record for its path or, on a
      removable drive, such a record the inference gave the shared profile. */
  method InferLoaded(records: seq<CameraFileInfo>, ghost sources: seq<string>, loaded: nat, failed: nat, directoryPath: string,
                     given: Option<CameraSetting>, removable: bool, cameras: seq<CameraSetting>,
                     globalPriority: Option<string>, dateTimeFormat: Option<string>, env: Env, disk: Disk)
    returns (report: LoadReport)
    requires Distinct(records) && |sources| == |records|
    requires LoadedRecords(records, sources, Some(directoryPath), given, cameras, globalPriority, dateTimeFormat, env, disk)
    requires given.Some? ==> forall k | 0 <= k < |records| :: records[k].camera == given
    modifies set f | f in records
    ensures LoadedOrInferred(records, sources, Some(directoryPath), given, cameras, removable, report.result == StatusType.Success,
                             globalPriority, dateTimeFormat, env, disk)
    ensures report.result == StatusType.Success || report.result == StatusType.Failed
    ensures report.result == StatusType.Failed ==> removable
    ensures report.result == StatusType.Success ==> report.text == LoadedText(loaded, failed, directoryPath)
    ensures given.Some? ==> forall k | 0 <= k < |records| :: records[k].camera == given
    ensures report.result == StatusType.Success && removable && (exists k | 0 <= k < |records| :: Known(records[k])) ==>
      forall i, j | 0 <= i < |records| && 0 <= j < |records| :: records[i].camera == records[j].camera
  {
    hide Loadable, LoadedFrom, DestinationPlan, DestinationPath, Took, SetterOutcome, LoadedRecords, LoadedOrInferred, Known,
      SingleKnownCamera, LoadedText, Failure, Constructed, Reassigned;
    forall k | 0 <= k < |records|
      ensures LoadedFrom(records[k], sources[k], Some(directoryPath), given, cameras, globalPriority, dateTimeFormat, env, disk)
      ensures Constructed(records[k], sources[k], Some(directoryPath), env)
    {
      LoadedRecordAt(records, sources, k, Some(directoryPath), given, cameras, globalPriority, dateTimeFormat, env, disk);
    }
    label Loaded:
    report := InferAndReport(records, loaded, failed, directoryPath, given, removable, globalPriority, dateTimeFormat, env, disk);
    forall k | 0 <= k < |records|
      ensures || LoadedFrom(records[k], sources[k], Some(directoryPath), given, cameras, globalPriority, dateTimeFormat, env, disk)
              || (&& removable
                  && Reassigned(records[k], sources[k], Some(directoryPath), globalPriority, dateTimeFormat, env, disk)
                  && (report.result == StatusType.Success ==>
                        SetterOutcome(records[k], records[k].camera.value, globalPriority, dateTimeFormat, env) == Done))
    {
      if records[k].camera == old@Loaded(records[k].camera) {
        assert old@Loaded(LoadedFrom(records[k], sources[k], Some(directoryPath), given, cameras, globalPriority, dateTimeFormat, env, disk));
      } else {
        assert old@Loaded(Constructed(records[k], sources[k], Some(directoryPath), env));
        ReassignedIntro(records[k], sources[k], Some(directoryPath), globalPriority, dateTimeFormat, env, disk);
      }
    }
    LoadedOrInferredIntro(records, sources, Some(directoryPath), given, cameras, removable, report.result == StatusType.Success,
                          globalPriority, dateTimeFormat, env, disk);
  }

  /** The record at `k` of records of the constructor is one. */
  lemma LoadedRecordAt(records: seq<CameraFileInfo>, sources: seq<string>, k: nat, root: Option<string>, given: Option<CameraSetting>,
                       cameras: seq<CameraSetting>, globalPriority: Option<string>, dateTimeFormat: Option<string>, env: Env, disk: Disk)
    requires LoadedRecords(records, sources, root, given, cameras, globalPriority, dateTimeFormat, env, disk) && k < |records|
    ensures k < |sources|
    ensures LoadedFrom(records[k], sources[k], root, given, cameras, globalPriority, dateTimeFormat, env, disk)
    ensures Constructed(records[k], sources[k], root, env)
  {
    LoadedFromConstructed(records[k], sources[k], root, given, cameras, globalPriority, dateTimeFormat, env, disk);
  }

  /** A record with the constructor's untouched parts that took a profile is a reassigned one. */
  lemma ReassignedIntro(info: CameraFileInfo, sourcePath: string, root: Option<string>, globalPriority: Option<string>,
                        dateTimeFormat: Option<string>, env: Env, disk: Disk)
    requires Constructed(info, sourcePath, root, env) && info.camera.Some?
    requires Took(info, info.camera.value, globalPriority, dateTimeFormat, env, disk)
    ensures Reassigned(info, sourcePath, root, globalPriority, dateTimeFormat, env, disk)
  {
    hide Constructed, Took;
  }

  /** Records each of which is the constructor's or an inferred one are described as such. */
  lemma LoadedOrInferredIntro(records: seq<CameraFileInfo>, sources: seq<string>, root: Option<string>, given: Option<CameraSetting>,
                              cameras: seq<CameraSetting>, removable: bool, success: bool, globalPriority: Option<string>,
                              dateTimeFormat: Option<string>, env: Env, disk: Disk)
    requires |records| == |sources|
    requires forall k | 0 <= k < |records| ::
      || LoadedFrom(records[k], sources[k], root, given, cameras, globalPriority, dateTimeFormat, env, disk)
      || (&& removable
          && Reassigned(records[k], sources[k], root, globalPriority, dateTimeFormat, env, disk)
          && (success ==> SetterOutcome(records[k], records[k].camera.value, globalPriority, dateTimeFormat, env) == Done))
    ensures LoadedOrInferred(records, sources, root, given, cameras, removable, success, globalPriority, dateTimeFormat, env, disk)
  {
    hide LoadedFrom, Reassigned, SetterOutcome;
  }

  /** Records of the constructor satisfy the weaker description. */
  lemma LoadedAreLoadedOrInferred(records: seq<CameraFileInfo>, sources: seq<string>, root: Option<string>, given: Option<CameraSetting>,
                                  cameras: seq<CameraSetting>, removable: bool, success: bool, globalPriority: Option<string>,
                                  dateTimeFormat: Option<string>, env: Env, disk: Disk)
    requires LoadedRecords(records, sources, root, given, cameras, globalPriority, dateTimeFormat, env, disk)
    ensures LoadedOrInferred(records, sources, root, given, cameras, removable, success, globalPriority, dateTimeFormat, env, disk)
  {
    hide LoadedFrom, Reassigned, SetterOutcome;
  }

  /** After a loop that ran to the end: the inference on a removable drive, then the report,
      Failed with the message of the exception the inference raises: the one of conflicting
      known profiles, or the one of deriving a destination for a record given the shared
      profile. A record whose profile changes has its destination derived again; every
      other record is untouched, and no status or error changes. */
  method InferAndReport(records: seq<CameraFileInfo>, loaded: nat, failed: nat, directoryPath: string, given: Option<CameraSetting>,
                        removable: bool, globalPriority: Option<string>, dateTimeFormat: Option<string>, env: Env, disk: Disk)
    returns (report: LoadReport)
    requires Distinct(records)
    requires given.Some? ==> forall k | 0 <= k < |records| :: records[k].camera == given
    modifies set f | f in records
    ensures report.result == StatusType.Success || report.result == StatusType.Failed
    ensures report.result == StatusType.Failed ==> removable
    ensures report.result == StatusType.Failed ==>
      || (old(SingleKnownCamera(records)).Fail? && report == Failure(MoreThanOneMessage))
      || exists k | 0 <= k < |records| ::
           && records[k].camera != old(records[k].camera) && records[k].camera.Some?
           && SetterOutcome(records[k], records[k].camera.value, globalPriority, dateTimeFormat, env).Raised?
           && report == Failure(SetterOutcome(records[k], records[k].camera.value, globalPriority, dateTimeFormat, env).message)
    ensures report.result == StatusType.Success ==> report.text == LoadedText(loaded, failed, directoryPath)
    ensures given.Some? ==> forall k | 0 <= k < |records| :: records[k].camera == given
    ensures report.result == StatusType.Success && removable && (exists k | 0 <= k < |records| :: Known(records[k])) ==>
      forall i, j | 0 <= i < |records| && 0 <= j < |records| :: records[i].camera == records[j].camera
    ensures forall k | 0 <= k < |records| ::
      && records[k].fileAttributes == old(records[k].fileAttributes)
      && records[k].status == old(records[k].status) && records[k].error == old(records[k].error)
    ensures forall k | 0 <= k < |records| && records[k].camera == old(records[k].camera) :: unchanged(records[k])
    ensures forall k | 0 <= k < |records| && records[k].camera != old(records[k].camera) ::
      && removable && records[k].camera.Some?
      && Took(records[k], records[k].camera.value, globalPriority, dateTimeFormat, env, disk)
      && (report.result == StatusType.Success ==>
            SetterOutcome(records[k], records[k].camera.value, globalPriority, dateTimeFormat, env) == Done)
  {
    hide DestinationPlan, DestinationPath, Took, SetterOutcome, Known, SingleKnownCamera;
    var outcome := Done;
    if removable {
      label BeforeInference:
      outcome := InferCameras(records, globalPriority, dateTimeFormat, env, disk);
      forall k | 0 <= k < |records| && given.Some? ensures records[k].camera == given {
        assert old@BeforeInference(records[k].camera) == given;
      }
    }
    if outcome.Raised? {
      report := Failure(outcome.message);
    } else {
      report := LoadReport(StatusType.Success, LoadedText(loaded, failed, directoryPath));
    }
  }


  /** The parts of a record the inference does not touch, as the constructor leaves them
      for the path: the fixed parts, the attributes, status Ready and no error. */
  predicate Constructed(info: CameraFileInfo, sourcePath: string, root: Option<string>, env: Env)
    reads info`fileAttributes, info`status, info`error
  {
    && info.sourceDirectory == GetDirectoryName(sourcePath) && info.sourceFileName == GetFileName(sourcePath)
    && info.sourceDirectoryRoot == NormalizeRoot(root)
    && SortedAttributes(sourcePath, env) == Ok(info.fileAttributes)
    && info.status == StatusType.Ready && info.error.Null?
  }

  /** A record the constructor built leaves those parts as the constructor does. */
  lemma LoadedFromConstructed(info: CameraFileInfo, sourcePath: string, root: Option<string>, given: Option<CameraSetting>,
                              cameras: seq<CameraSetting>, globalPriority: Option<string>, dateTimeFormat: Option<string>, env: Env, disk: Disk)
    requires LoadedFrom(info, sourcePath, root, given, cameras, globalPriority, dateTimeFormat, env, disk)
    ensures Constructed(info, sourcePath, root, env)
  {
  }

  /** A record the constructor built for the path whose profile the inference then replaced:
      the untouched parts as the constructor left them, and the destination derived again
      with the new profile, Selected now from the file at the record's own source path. */
  predicate Reassigned(info: CameraFileInfo, sourcePath: string, root: Option<string>, globalPriority: Option<string>,
                       dateTimeFormat: Option<string>, env: Env, disk: Disk)
    reads info, if info.camera.Some? then {info.camera.value} else {}
  {
    && Constructed(info, sourcePath, root, env)
    && info.camera.Some?
    && Took(info, info.camera.value, globalPriority, dateTimeFormat, env, disk)
  }

  /** Each record is the constructor's record for the path beside it or, on a removable
      drive, such a record the inference gave another profile; after a successful load the
      destination of every such record could be derived. */
  predicate LoadedOrInferred(records: seq<CameraFileInfo>, sources: seq<string>, root: Option<string>, given: Option<CameraSetting>,
                             cameras: seq<CameraSetting>, removable: bool, success: bool, globalPriority: Option<string>,
                             dateTimeFormat: Option<string>, env: Env, disk: Disk)
    reads set f | f in records, set f | f in records && f.camera.Some? :: f.camera.value
    reads set c | c in cameras, if given.Some? then {given.value} else {}
  {
    |records| == |sources| &&
    forall k | 0 <= k < |records| ::
      || LoadedFrom(records[k], sources[k], root, given, cameras, globalPriority, dateTimeFormat, env, disk)
      || (&& removable
          && Reassigned(records[k], sources[k], root, globalPriority, dateTimeFormat, env, disk)
          && (success ==> SetterOutcome(records[k], records[k].camera.value, globalPriority, dateTimeFormat, env) == Done))
  }

  /** The scan from its candidate files on: the loop and the inference when there are
      candidates, then the selected-first sort of whatever was loaded. */
  method LoadSorted(paths: seq<string>, directoryPath: string, given: Option<CameraSetting>, removable: bool, cameras: seq<CameraSetting>,
                    globalPriority: Option<string>, dateTimeFormat: Option<string>, cancelBefore: Option<nat>, env: Env, disk: Disk)
    returns (files: seq<CameraFileInfo>, report: LoadReport)
    ensures SelectedFirst(files)
    ensures forall k | 0 <= k < |files| :: fresh(files[k])
    ensures exists records: seq<CameraFileInfo> ::
      (&& multiset(records) == multiset(files)
       && RecordsOf(records, LoadablePaths(paths[..Reached(|paths|, cancelBefore)], given, cameras, globalPriority, dateTimeFormat, env, disk))
       && LoadedOrInferred(records, LoadablePaths(paths[..Reached(|paths|, cancelBefore)], given, cameras, globalPriority, dateTimeFormat, env, disk),
                           Some(directoryPath), given, cameras, removable, report.result == StatusType.Success,
                           globalPriority, dateTimeFormat, env, disk))
    ensures |files| <= Reached(|paths|, cancelBefore)
    ensures report.result == StatusType.Success || report.result == StatusType.Failed
    ensures Reached(|paths|, cancelBefore) < |paths| ==> report == Failure(CanceledMessage)
    ensures report.result == StatusType.Failed && Reached(|paths|, cancelBefore) == |paths| ==> removable && paths != []
    ensures report.result == StatusType.Success ==> report.text == LoadedText(|files|, |paths| - |files|, directoryPath)
    ensures given.Some? ==> forall k | 0 <= k < |files| :: files[k].camera == given
    ensures report.result == StatusType.Success && removable && (exists k | 0 <= k < |files| :: Known(files[k])) ==>
      forall i, j | 0 <= i < |files| && 0 <= j < |files| :: files[i].camera == files[j].camera
  {
    hide Loadable, LoadedFrom, LoadablePaths, LoadableFlags, DestinationPlan, DestinationPath, Known, RecordsOf, SelectedFirst, LoadedText, Failure,
      LoadedOrInferred, Reassigned, Took, SetterOutcome;
    var records: seq<CameraFileInfo> := [];
    report := LoadReport(StatusType.Success, LoadedText(0, 0, directoryPath));
    if paths != [] {
      records, report := LoadAndInfer(paths, directoryPath, given, removable, cameras, globalPriority, dateTimeFormat, cancelBefore, env, disk);
    } else {
      assert LoadablePaths(paths[..Reached(|paths|, cancelBefore)], given, cameras, globalPriority, dateTimeFormat, env, disk) == [];
      NoRecords();
      LoadedAreLoadedOrInferred(records, [], Some(directoryPath), given, cameras, removable, true, globalPriority, dateTimeFormat, env, disk);
    }
    files := SortedSelectedFirst(records);
    forall k | 0 <= k < |files| ensures files[k] in records {
      assert files[k] in multiset(records);
    }
    assert RecordsOf(records, LoadablePaths(paths[..Reached(|paths|, cancelBefore)], given, cameras, globalPriority, dateTimeFormat, env, disk));
    assert LoadedOrInferred(records, LoadablePaths(paths[..Reached(|paths|, cancelBefore)], given, cameras, globalPriority, dateTimeFormat, env, disk),
                            Some(directoryPath), given, cameras, removable, report.result == StatusType.Success,
                            globalPriority, dateTimeFormat, env, disk);
  }

  /** `GetCameraFilesFromDirectory`: the records of the directory's candidate files, selected
      ones first, whether the directory is on a removable drive, and the final report. Any
      exception is caught and reported as Failed, and whatever was loaded so far is still
      sorted and returned. */
  method GetCameraFilesFromDirectory(settings: Settings, directoryPath: string, recursive: bool, cancelBefore: Option<nat>,
                                     env: Env, disk: Disk)
    returns (files: seq<CameraFileInfo>, isRemovableDrive: bool, report: LoadReport)
    ensures isRemovableDrive == IsRemovableDrive(directoryPath, env)
    ensures SelectedFirst(files)
    ensures forall k | 0 <= k < |files| :: fresh(files[k])
    ensures report.result == StatusType.Success || report.result == StatusType.Failed
    ensures Scan(directoryPath, recursive, settings.extensions, settings.cameraSettings, env, disk).Fail? ==>
      files == [] && report == Failure(Scan(directoryPath, recursive, settings.extensions, settings.cameraSettings, env, disk).message)
    ensures Scan(directoryPath, recursive, settings.extensions, settings.cameraSettings, env, disk).Ok? ==>
      var paths := Scan(directoryPath, recursive, settings.extensions, settings.cameraSettings, env, disk).value.0;
      var given := Scan(directoryPath, recursive, settings.extensions, settings.cameraSettings, env, disk).value.1;
      var reached := Reached(|paths|, cancelBefore);
      && (exists records: seq<CameraFileInfo> ::
            && multiset(records) == multiset(files)
            && RecordsOf(records, LoadablePaths(paths[..reached], given, settings.cameraSettings, settings.dateTimePriority,
                                                settings.dateTimeFormat, env, disk))
            && LoadedOrInferred(records, LoadablePaths(paths[..reached], given, settings.cameraSettings, settings.dateTimePriority,
                                                       settings.dateTimeFormat, env, disk),
                                Some(directoryPath), given, settings.cameraSettings, isRemovableDrive,
                                report.result == StatusType.Success, settings.dateTimePriority, settings.dateTimeFormat, env, disk))
      && |files| <= reached
      && (reached < |paths| ==> report == Failure(CanceledMessage))
      && (report.result == StatusType.Failed && reached == |paths| ==> isRemovableDrive && paths != [])
      && (report.result == StatusType.Success ==> report.text == LoadedText(|files|, |paths| - |files|, directoryPath))
      && (given.Some? ==> forall k | 0 <= k < |files| :: files[k].camera == given)
    ensures report.result == StatusType.Success && isRemovableDrive && (exists k | 0 <= k < |files| :: Known(files[k])) ==>
      forall i, j | 0 <= i < |files| && 0 <= j < |files| :: files[i].camera == files[j].camera
  {
    hide Loadable, LoadedFrom, LoadablePaths, LoadableFlags, DestinationPlan, DestinationPath, Candidates, HintCamera, Scan, Known, RecordsOf,
      LoadedOrInferred, Reassigned, Took, SetterOutcome;
    isRemovableDrive := false;
    if !IsEffectivelyEmpty(directoryPath) {
      isRemovableDrive := IsRemovableDrive(directoryPath, env);
    }
    var scan := Prepare(directoryPath, recursive, settings.extensions, settings.cameraSettings, env, disk);
    if scan.Fail? {
      files, report := [], Failure(scan.message);
      return;
    }
    files, report := LoadSorted(scan.value.0, directoryPath, scan.value.1, isRemovableDrive, settings.cameraSettings,
                                settings.dateTimePriority, settings.dateTimeFormat, cancelBefore, env, disk);
  }
}
