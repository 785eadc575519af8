/** What a file's attributes say about the camera that made it: its make and model (with the
    fallbacks through the profiles' aliases and the tag written by an earlier copy), the
    profile they select, and the name the file gets at its destination. */
module AttributeExtensions {
  import opened Wrappers
  import opened Text
  import opened Paths
  import opened Timestamps
  import opened Platform
  import opened FileAttributes
  import opened CameraSettings

  /** A make and a model, either possibly null. */
  type MakeAndModel = (Option<string>, Option<string>)

  /** `a ?? b` */
  function Coalesce(a: Option<string>, b: Option<string>): Option<string> {
    if a.Some? then a else b
  }

  /** The make and model as the attributes state them: "Make", or "Android Manufacturer" when
      there is no "Make"; "Model", or "Android Model" when there is no "Model". */
  function Stock(attributes: seq<FileAttribute>): MakeAndModel {
    (Coalesce(Value(attributes, "Make"), Value(attributes, "Android Manufacturer")),
     Coalesce(Value(attributes, "Model"), Value(attributes, "Android Model")))
  }

  predicate BothBlank(mm: MakeAndModel) {
    IsNullOrWhiteSpace(mm.0) && IsNullOrWhiteSpace(mm.1)
  }

  /** The profile's alias is not blank and occurs in the full name. */
  predicate AliasOccursIn(camera: CameraSetting, fullName: string)
    reads camera
  {
    !IsNullOrWhiteSpace(camera.alias) && Contains(fullName, camera.alias.value)
  }

  /** The alias search stops at this profile: its alias is not blank and either occurs in the
      full name or, the full name being null, the containment test throws. */
  predicate StopsAt(camera: CameraSetting, fullName: Option<string>)
    reads camera
  {
    !IsNullOrWhiteSpace(camera.alias) && (fullName.Null? || Contains(fullName.value, camera.alias.value))
  }

  /** The first profile, in collection order, whose non-blank alias occurs in the full name
      (`FirstOrDefault`); with a null full name the first non-blank alias throws. */
  function AliasCamera(cameras: seq<CameraSetting>, fullName: Option<string>): (r: Result<Option<CameraSetting>>)
    reads set c | c in cameras
    ensures r.Fail? <==> fullName.Null? && exists i | 0 <= i < |cameras| :: !IsNullOrWhiteSpace(cameras[i].alias)
    ensures r.Ok? && r.value.Some? ==> fullName.Some? && exists i | 0 <= i < |cameras| ::
      cameras[i] == r.value.value && AliasOccursIn(cameras[i], fullName.value) &&
      forall j | 0 <= j < i :: !AliasOccursIn(cameras[j], fullName.value)
    ensures r == Ok(Null) <==> forall i | 0 <= i < |cameras| :: !StopsAt(cameras[i], fullName)
  {
    if cameras == [] then Ok(Null)
    else if StopsAt(cameras[0], fullName) then
      if fullName.Null? then Fail("Object reference not set to an instance of an object.")
      else Ok(Some(cameras[0]))
    else
      var r := AliasCamera(cameras[1..], fullName);
      assert forall i | 1 <= i < |cameras| :: cameras[i] == cameras[1..][i - 1];
      r
  }

  /** The profile's make and model, both null without a profile. */
  function MakeAndModelOfCamera(camera: Option<CameraSetting>): MakeAndModel
    reads if camera.Some? then {camera.value} else {}
  {
    if camera.Some? then (camera.value.make, camera.value.model) else (Null, Null)
  }

  /** `ElementAtOrDefault` */
  function ElementAtOrDefault(items: seq<Option<string>>, i: nat): Option<string> {
    if i < |items| then items[i] else Null
  }

  /** The tag errors the make-and-model fallback ignores. */
  predicate Ignored(error: TagError) {
    error == CorruptFile || error == UnsupportedFormat || error == InvalidData
  }

  /** Performers [0] and [1] of the file's tag; an ignored tag error keeps `current`. */
  function TagFallback(current: MakeAndModel, disk: Disk, fullName: Option<string>): (r: Result<MakeAndModel>)
  {
    match ReadPerformers(disk, fullName)
    case TagOk(performers) => Ok((ElementAtOrDefault(performers, 0), ElementAtOrDefault(performers, 1)))
    case TagFailed(error, message) => if Ignored(error) then Ok(current) else Fail(message)
  }

  /** The make and model by cases: the stock values unless the fallbacks apply and both are
      blank; then the first aliased profile's, unless both of those are blank too; then the
      tag's. */
  function MakeAndModelOf(attributes: seq<FileAttribute>, cameras: seq<CameraSetting>, disk: Disk, fallback: bool): Result<MakeAndModel>
    reads set c | c in cameras
  {
    var stock := Stock(attributes);
    if !fallback || !BothBlank(stock) then Ok(stock)
    else match AliasCamera(cameras, Value(attributes, "FullName"))
      case Fail(message) => Fail(message)
      case Ok(camera) =>
        var byAlias := MakeAndModelOfCamera(camera);
        if !BothBlank(byAlias) then Ok(byAlias)
        else TagFallback(byAlias, disk, Value(attributes, "FullName"))
  }

  /** `GetMakeAndModel`: the stock values, then (both blank, fallbacks on) the first aliased
      profile's make and model, then (still both blank) the tag's first two performers. */
  method GetMakeAndModel(attributes: seq<FileAttribute>, cameras: seq<CameraSetting>, disk: Disk, fallback: bool)
    returns (r: Result<MakeAndModel>)
    ensures r == MakeAndModelOf(attributes, cameras, disk, fallback)
    ensures !fallback || !BothBlank(Stock(attributes)) ==> r == Ok(Stock(attributes))
    ensures r.Fail? ==> fallback && BothBlank(Stock(attributes))
    ensures fallback && BothBlank(Stock(attributes)) ==>
      match AliasCamera(cameras, Value(attributes, "FullName"))
      case Fail(_) => r.Fail?
      case Ok(camera) =>
        && (camera.Some? && !BothBlank(MakeAndModelOfCamera(camera)) ==> r == Ok((camera.value.make, camera.value.model)))
        && (BothBlank(MakeAndModelOfCamera(camera)) ==> r == TagFallback(MakeAndModelOfCamera(camera), disk, Value(attributes, "FullName")))
  {
    var make := Value(attributes, "Make");
    if make.Null? {
      make := Value(attributes, "Android Manufacturer");
    }
    var model := Value(attributes, "Model");
    if model.Null? {
      model := Value(attributes, "Android Model");
    }
    if fallback && IsNullOrWhiteSpace(make) && IsNullOrWhiteSpace(model) {
      var found := AliasCamera(cameras, Value(attributes, "FullName"));
      if found.Fail? {
        return Fail(found.message);
      }
      make := if found.value.Some? then found.value.value.make else Null;
      model := if found.value.Some? then found.value.value.model else Null;
    }
    if fallback && IsNullOrWhiteSpace(make) && IsNullOrWhiteSpace(model) {
      var tag := ReadPerformers(disk, Value(attributes, "FullName"));
      if tag.TagOk? {
        make := ElementAtOrDefault(tag.value, 0);
        model := ElementAtOrDefault(tag.value, 1);
      } else if !Ignored(tag.error) {
        return Fail(tag.message);
      }
    }
    return Ok((make, model));
  }

  // ---- the profile a file belongs to ----

  /** A profile matches when its model equals the derived model and its make equals the
      derived make, any make matching a null derived make. */
  predicate Matches(camera: CameraSetting, mm: MakeAndModel)
    reads camera
  {
    (camera.make == mm.0 || mm.0.Null?) && camera.model == mm.1
  }

  /** The first matching position at or after `from`. */
  function FirstMatch(cameras: seq<CameraSetting>, mm: MakeAndModel, from: nat): (r: Option<nat>)
    requires from <= |cameras|
    reads set c | c in cameras
    ensures r.Some? ==> from <= r.value < |cameras| && Matches(cameras[r.value], mm)
    ensures r.Some? ==> forall j | from <= j < r.value :: !Matches(cameras[j], mm)
    ensures r.Null? ==> forall j | from <= j < |cameras| :: !Matches(cameras[j], mm)
    decreases |cameras| - from
  {
    if from == |cameras| then Null
    else if Matches(cameras[from], mm) then Some(from)
    else FirstMatch(cameras, mm, from + 1)
  }

  /** `SingleOrDefault`: no match gives null, one match gives that profile, two or more
      throw. Matches are counted by position, so a profile listed twice throws. */
  function SingleMatch(cameras: seq<CameraSetting>, mm: MakeAndModel): (r: Result<Option<CameraSetting>>)
    reads set c | c in cameras
    ensures r.Fail? <==> exists i, j | 0 <= i < j < |cameras| :: Matches(cameras[i], mm) && Matches(cameras[j], mm)
    ensures r == Ok(Null) <==> forall i | 0 <= i < |cameras| :: !Matches(cameras[i], mm)
    ensures r.Ok? && r.value.Some? ==> exists i | 0 <= i < |cameras| ::
      cameras[i] == r.value.value && Matches(cameras[i], mm) &&
      forall j | 0 <= j < |cameras| && j != i :: !Matches(cameras[j], mm)
  {
    match FirstMatch(cameras, mm, 0)
    case Null => Ok(Null)
    case Some(i) =>
      match FirstMatch(cameras, mm, i + 1)
      case Some(_) => Fail("Sequence contains more than one matching element")
      case Null => Ok(Some(cameras[i]))
  }

  /** `GetCamera`: the single profile matching the derived make and model. */
  function GetCamera(attributes: seq<FileAttribute>, cameras: seq<CameraSetting>, disk: Disk): (r: Result<Option<CameraSetting>>)
    reads set c | c in cameras
    ensures MakeAndModelOf(attributes, cameras, disk, true).Fail? ==> r.Fail?
    ensures r.Ok? && r.value.Some? ==>
      r.value.value in cameras && Matches(r.value.value, MakeAndModelOf(attributes, cameras, disk, true).value)
    ensures MakeAndModelOf(attributes, cameras, disk, true).Ok? ==>
      var mm := MakeAndModelOf(attributes, cameras, disk, true).value;
      && (r == Ok(Null) <==> forall i | 0 <= i < |cameras| :: !Matches(cameras[i], mm))
      && (r.Fail? <==> exists i, j | 0 <= i < j < |cameras| :: Matches(cameras[i], mm) && Matches(cameras[j], mm))
  {
    match MakeAndModelOf(attributes, cameras, disk, true)
    case Fail(message) => Fail(message)
    case Ok(mm) => SingleMatch(cameras, mm)
  }

  // ---- the destination file name ----

  /** The priority list: the profile's own, split on spaces, when it is not blank; otherwise
      the global one, when that is not blank. */
  function PriorityList(own: Option<string>, global: Option<string>): (r: seq<string>)
    ensures !IsNullOrWhiteSpace(own) ==> r == SplitEntries(own.value, ' ') && r != []
    ensures IsNullOrWhiteSpace(own) && !IsNullOrWhiteSpace(global) ==> r == SplitEntries(global.value, ' ')
    ensures IsNullOrWhiteSpace(own) && IsNullOrWhiteSpace(global) ==> r == []
  {
    var first := if !IsNullOrWhiteSpace(own) then SplitEntries(own.value, ' ') else [];
    assert !IsNullOrWhiteSpace(own) ==> first != [] by {
      if !IsNullOrWhiteSpace(own) {
        NonBlankHasEntry(own.value, ' ');
      }
    }
    if first == [] && !IsNullOrWhiteSpace(global) then SplitEntries(global.value, ' ') else first
  }

  /** The position of the first priority whose attribute value parses. */
  function FirstParsed(priorities: seq<string>, attributes: seq<FileAttribute>, env: Env, from: nat): (r: Option<nat>)
    requires from <= |priorities|
    ensures r.Some? ==> from <= r.value < |priorities| && env.tryParse(Value(attributes, priorities[r.value])).Some?
    ensures r.Some? ==> forall k | from <= k < r.value :: env.tryParse(Value(attributes, priorities[k])).Null?
    ensures r.Null? ==> forall k | from <= k < |priorities| :: env.tryParse(Value(attributes, priorities[k])).Null?
    decreases |priorities| - from
  {
    if from == |priorities| then Null
    else if env.tryParse(Value(attributes, priorities[from])).Some? then Some(from)
    else FirstParsed(priorities, attributes, env, from + 1)
  }

  /** The time the priority loop leaves behind: `start` when the list is empty, otherwise the
      first value that parses, or DateTime's default when none does (each failed `TryParse`
      stores the default). */
  function PriorityTime(priorities: seq<string>, attributes: seq<FileAttribute>, env: Env, start: DateTime): DateTime {
    if priorities == [] then start
    else match FirstParsed(priorities, attributes, env, 0)
      case Some(k) => env.tryParse(Value(attributes, priorities[k])).value
      case Null => DefaultDateTime
  }

  /** The timestamp chosen for a file and the name left to match the profile's format. */
  datatype Stamp = Stamp(time: DateTime, name: string)

  /** The dash stamp's match, when it parses. */
  function DashParsed(fileName: string): Option<DateTime> {
    match FindDash(fileName, 0)
    case Null => Null
    case Some((i, e)) => ParseDash(fileName[i..e])
  }

  /** The newer Ring stamp's match, when it parses. */
  function RingNewParsed(fileName: string): Option<DateTime> {
    match FindRingNew(fileName)
    case Null => Null
    case Some(i) => ParseRingNew(fileName[i..i + 13])
  }

  /** The older Ring stamp's match, when it parses (as UTC). */
  function RingOldParsed(fileName: string): Option<DateTime> {
    match FindRingOld(fileName, 0)
    case Null => Null
    case Some(i) => ParseRingOld(fileName[i..i + 17])
  }

  /** A file name from which some timestamp parse is attempted before the priority list. */
  predicate StampAttempted(fileName: string) {
    FindDash(fileName, 0).Some? || FindRingNew(fileName).Some? || FindRingOld(fileName, 0).Some?
  }

  /** The timestamp by the first source that yields one: the dash stamp (whose matches are
      then removed from the name), the newer Ring stamp, the older Ring stamp converted to local
      time, the priority list. A stamp that matches but does not parse leaves DateTime's
      default behind for the sources after it. */
  function StampOf(fileName: string, priorities: seq<string>, attributes: seq<FileAttribute>, env: Env): Stamp {
    if DashParsed(fileName).Some? then Stamp(DashParsed(fileName).value, Trim(StripDashStamps(fileName, 0)))
    else if RingNewParsed(fileName).Some? then Stamp(RingNewParsed(fileName).value, fileName)
    else if RingOldParsed(fileName).Some? then Stamp(env.toLocal(RingOldParsed(fileName).value), fileName)
    else
      var start := if StampAttempted(fileName) then DefaultDateTime else env.now;
      Stamp(PriorityTime(priorities, attributes, env, start), fileName)
  }

  /** The clock reading survives only when no parse at all is attempted; a parse attempted
      and failed everywhere leaves DateTime's default. */
  lemma StampFallbacks(fileName: string, priorities: seq<string>, attributes: seq<FileAttribute>, env: Env)
    ensures !StampAttempted(fileName) && priorities == [] ==> StampOf(fileName, priorities, attributes, env).time == env.now
    ensures
      && DashParsed(fileName).Null? && RingNewParsed(fileName).Null? && RingOldParsed(fileName).Null?
      && (StampAttempted(fileName) || priorities != [])
      && (forall k | 0 <= k < |priorities| :: env.tryParse(Value(attributes, priorities[k])).Null?)
      ==> StampOf(fileName, priorities, attributes, env).time == DefaultDateTime
    ensures DashParsed(fileName).Null? && RingNewParsed(fileName).Null? && RingOldParsed(fileName).Null? ==>
      StampOf(fileName, priorities, attributes, env).name == fileName
  {
  }

  /** The part of the name the profile's format keeps: groups 1.. concatenated when the
      pattern has groups, the whole match otherwise, nothing when it does not match. */
  function Fragment(outcome: RegexOutcome): string
    requires !outcome.BadPattern?
  {
    match outcome
    case NoMatch => ""
    case Match(value, groups) => if |groups| > 0 then Concat(groups) else value
  }

  /** The new name: the non-blank ones of the parts joined with spaces and trimmed, then the
      extension. */
  function Assemble(parts: seq<Option<string>>, extension: Option<string>): string {
    Trim(Join(" ", NonBlank(parts))) + extension.OrElse("")
  }

  /** The parts of the new name for a file name and a profile: the formatted timestamp, the
      profile's alias and the fragment its format keeps; the exception an invalid pattern or
      an invalid date format raises. */
  function NameParts(fileName: string, attributes: seq<FileAttribute>, camera: CameraSetting, globalPriority: Option<string>,
                     dateTimeFormat: Option<string>, env: Env): Result<seq<Option<string>>>
    reads camera
  {
    var stamp := StampOf(fileName, PriorityList(camera.dateTimePriority, globalPriority), attributes, env);
    var outcome := env.matchFormat(stamp.name, camera.format.OrElse(""));
    if outcome.BadPattern? then Fail(outcome.message)
    else match env.formatDate(stamp.time, dateTimeFormat)
      case Fail(message) => Fail(message)
      case Ok(text) => Ok([Some(text), camera.alias, Some(Fragment(outcome))])
  }

  /** `GetDestinationFileName`, by cases: with no profile the "Name" attribute; with a
      profile, the assembled name, or the exception a null name or a bad format raises. */
  function DestinationNameOf(attributes: seq<FileAttribute>, camera: Option<CameraSetting>, globalPriority: Option<string>,
                             dateTimeFormat: Option<string>, env: Env): Result<Option<string>>
    reads if camera.Some? then {camera.value} else {}
  {
    if camera.Null? then Ok(Value(attributes, "Name"))
    else if Value(attributes, "Name").Null? then Fail("Value cannot be null. (Parameter 'input')")
    else
      var fileName := GetFileNameWithoutExtension(Value(attributes, "Name").value);
      match NameParts(fileName, attributes, camera.value, globalPriority, dateTimeFormat, env)
      case Fail(message) => Fail(message)
      case Ok(parts) => Ok(Some(Assemble(parts, Value(attributes, "Extension"))))
  }

  /** The timestamp search of `GetDestinationFileName` as the source runs it: the three
      stamps in turn, then the priority loop. */
  method FindStamp(fileName: string, priorities: seq<string>, attributes: seq<FileAttribute>, env: Env)
    returns (dateTime: DateTime, name: string)
    ensures Stamp(dateTime, name) == StampOf(fileName, priorities, attributes, env)
  {
    dateTime := env.now;
    name := fileName;
    var found := false;
    var dash := FindDash(fileName, 0);
    if dash.Some? {
      var parsed := ParseDash(fileName[dash.value.0..dash.value.1]);
      assert parsed == DashParsed(fileName);
      if parsed.Some? {
        dateTime, name, found := parsed.value, Trim(StripDashStamps(fileName, 0)), true;
      } else {
        dateTime := DefaultDateTime;
      }
    }
    if !found {
      var ringNew := FindRingNew(fileName);
      if ringNew.Some? {
        var parsed := ParseRingNew(fileName[ringNew.value..ringNew.value + 13]);
        assert parsed == RingNewParsed(fileName);
        if parsed.Some? {
          dateTime, found := parsed.value, true;
        } else {
          dateTime := DefaultDateTime;
        }
      }
    }
    if !found {
      var ringOld := FindRingOld(fileName, 0);
      if ringOld.Some? {
        var parsed := ParseRingOld(fileName[ringOld.value..ringOld.value + 17]);
        assert parsed == RingOldParsed(fileName);
        if parsed.Some? {
          dateTime, found := env.toLocal(parsed.value), true;
        } else {
          dateTime := DefaultDateTime;
        }
      }
    }
    if !found {
      dateTime := PriorityLoop(priorities, attributes, env, dateTime);
    }
  }

  /** The loop over the priority list: stop at the first value that parses; every failed
      parse stores DateTime's default. */
  method PriorityLoop(priorities: seq<string>, attributes: seq<FileAttribute>, env: Env, start: DateTime)
    returns (dateTime: DateTime)
    ensures dateTime == PriorityTime(priorities, attributes, env, start)
  {
    dateTime := start;
    var i := 0;
    var found := false;
    while i < |priorities| && !found
      invariant 0 <= i <= |priorities|
      invariant !found ==> forall k | 0 <= k < i :: env.tryParse(Value(attributes, priorities[k])).Null?
      invariant !found ==> dateTime == if i == 0 then start else DefaultDateTime
      invariant found ==> i > 0 && FirstParsed(priorities, attributes, env, 0) == Some(i - 1)
      invariant found ==> dateTime == env.tryParse(Value(attributes, priorities[i - 1])).value
    {
      var parsed := env.tryParse(Value(attributes, priorities[i]));
      if parsed.Some? {
        dateTime, found := parsed.value, true;
        FirstParsedIsFirst(priorities, attributes, env, i);
      } else {
        dateTime := DefaultDateTime;
      }
      i := i + 1;
    }
    if !found && priorities != [] {
      FirstParsedNone(priorities, attributes, env, 0);
    }
  }

  /** A position that parses, with none before it, is the first one found. */
  lemma FirstParsedIsFirst(priorities: seq<string>, attributes: seq<FileAttribute>, env: Env, i: nat)
    requires i < |priorities| && env.tryParse(Value(attributes, priorities[i])).Some?
    requires forall k | 0 <= k < i :: env.tryParse(Value(attributes, priorities[k])).Null?
    ensures FirstParsed(priorities, attributes, env, 0) == Some(i)
  {
  }

  /** With no position that parses, none is found. */
  lemma FirstParsedNone(priorities: seq<string>, attributes: seq<FileAttribute>, env: Env, from: nat)
    requires from <= |priorities|
    requires forall k | from <= k < |priorities| :: env.tryParse(Value(attributes, priorities[k])).Null?
    ensures FirstParsed(priorities, attributes, env, from).Null?
  {
  }

  /** `GetDestinationFileName` for a file's attributes and its profile (null when it has
      none), with the global priority list and date format. */
  method GetDestinationFileName(attributes: seq<FileAttribute>, camera: Option<CameraSetting>, globalPriority: Option<string>,
                                dateTimeFormat: Option<string>, env: Env)
    returns (r: Result<Option<string>>)
    ensures r == DestinationNameOf(attributes, camera, globalPriority, dateTimeFormat, env)
    ensures camera.Null? ==> r == Ok(Value(attributes, "Name"))
    ensures camera.Some? ==> (r.Fail? <==> (Value(attributes, "Name").Null? ||
      NameParts(GetFileNameWithoutExtension(Value(attributes, "Name").value), attributes, camera.value, globalPriority, dateTimeFormat, env).Fail?))
  {
    hide StampOf, Value, GetFileNameWithoutExtension, Trim, Join, NonBlank, Concat, PriorityList;
    if camera.Null? {
      return Ok(Value(attributes, "Name"));
    }
    var name := Value(attributes, "Name");
    if name.Null? {
      return Fail("Value cannot be null. (Parameter 'input')");
    }
    var priorities := PriorityList(camera.value.dateTimePriority, globalPriority);
    var dateTime, fileName := FindStamp(GetFileNameWithoutExtension(name.value), priorities, attributes, env);
    var outcome := env.matchFormat(fileName, camera.value.format.OrElse(""));
    if outcome.BadPattern? {
      return Fail(outcome.message);
    }
    var fragment := "";
    if outcome.Match? {
      fragment := if |outcome.groups| > 0 then Concat(outcome.groups) else outcome.value;
    }
    var text := env.formatDate(dateTime, dateTimeFormat);
    if text.Fail? {
      return Fail(text.message);
    }
    var parts := [Some(text.value), camera.value.alias, Some(fragment)];
    r := Ok(Some(Trim(Join(" ", NonBlank(parts))) + Value(attributes, "Extension").OrElse("")));
  }

  /** The assembled name is the bare extension exactly when every part is null or blank. */
  lemma AssembleBlank(parts: seq<Option<string>>, extension: Option<string>)
    ensures Assemble(parts, extension) == extension.OrElse("") <==> forall k | 0 <= k < |parts| :: IsNullOrWhiteSpace(parts[k])
  {
    var kept := NonBlank(parts);
    var t, e := Trim(Join(" ", kept)), extension.OrElse("");
    assert t + e == e <==> t == [] by {
      if t + e == e {
        assert |t + e| == |t| + |e|;
      }
    }
    NonBlankEmpty(parts);
    if kept != [] {
      JoinNotBlank(kept);
    }
  }

  /** No part survives the filter exactly when every part is null or blank. */
  lemma {:induction false} NonBlankEmpty(parts: seq<Option<string>>)
    ensures NonBlank(parts) == [] <==> forall k | 0 <= k < |parts| :: IsNullOrWhiteSpace(parts[k])
  {
    if parts != [] {
      NonBlankEmpty(parts[1..]);
      assert forall k | 1 <= k < |parts| :: parts[k] == parts[1..][k - 1];
    }
  }

  /** Joining texts the first of which is not blank gives a text that is not blank. */
  lemma JoinNotBlank(parts: seq<string>)
    requires parts != [] && !IsBlank(parts[0])
    ensures !IsBlank(Join(" ", parts))
  {
    var i :| 0 <= i < |parts[0]| && !IsWhiteSpace(parts[0][i]);
    var joined := Join(" ", parts);
    if |parts| > 1 {
      assert joined == parts[0] + " " + Join(" ", parts[1..]);
    }
    assert joined[i] == parts[0][i];
  }
}
