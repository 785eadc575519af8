/** The file record: one source file, the profile it belongs to, and where and whether it is
    to be copied. */
module CameraFiles {
  import opened Wrappers
  import opened Text
  import opened Paths
  import opened Enumerations
  import opened Platform
  import opened FileAttributes
  import opened CameraSettings
  import opened AttributeExtensions

  /** The display root as the record keeps it: '/' turned into '\', trailing '\' dropped and
      exactly one '\' appended. A null root short-circuits to null, and null + "\" is "\". */
  function NormalizeRoot(root: Option<string>): (r: string)
    ensures |r| >= 1 && r[|r| - 1] == Separator
    ensures |r| == 1 || r[|r| - 2] != Separator
    ensures AltSeparator !in r
  {
    match root
    case Null => [Separator]
    case Some(text) =>
      var trimmed := TrimEndChar(ReplaceChar(text, AltSeparator, Separator), Separator);
      assert AltSeparator !in trimmed by {
        assert forall i | 0 <= i < |trimmed| :: trimmed[i] == ReplaceChar(text, AltSeparator, Separator)[i];
      }
      trimmed + [Separator]
  }

  /** A root already in that form is kept as it is. */
  lemma NormalizeRootIdempotent(root: Option<string>)
    ensures NormalizeRoot(Some(NormalizeRoot(root))) == NormalizeRoot(root)
  {
    var r := NormalizeRoot(root);
    ReplaceAbsent(r, AltSeparator, Separator);
    var trimmed := TrimEndChar(r, Separator);
    assert trimmed == r[..|r| - 1];
  }

  /** Replacing a character that does not occur changes nothing. */
  lemma ReplaceAbsent(s: string, from: char, to: char)
    requires from !in s
    ensures ReplaceChar(s, from, to) == s
  {
  }

  /** What the DestinationDirectory and DestinationFileName setters store: the value with
      every '/' replaced by '\', null staying null. */
  function Canonical(value: Option<string>): (r: Option<string>)
    ensures r.Null? <==> value.Null?
    ensures r.Some? ==> |r.value| == |value.value| && AltSeparator !in r.value
    ensures value.Some? && AltSeparator !in value.value ==> r == value
  {
    match value
    case Null => Null
    case Some(text) =>
      var t := ReplaceChar(text, AltSeparator, Separator);
      assert AltSeparator !in t by {
        assert forall i | 0 <= i < |t| :: t[i] != AltSeparator;
      }
      assert AltSeparator !in text ==> t == text by {
        if AltSeparator !in text {
          ReplaceAbsent(text, AltSeparator, Separator);
        }
      }
      Some(t)
  }

  /** The profile's destination folder, null without a profile. */
  function CameraDestination(camera: Option<CameraSetting>): Option<string>
    reads if camera.Some? then {camera.value} else {}
  {
    if camera.Some? then camera.value.destination else Null
  }

  /** Whether the profile asks for moving; false without a profile. */
  predicate CameraMove(camera: Option<CameraSetting>)
    reads if camera.Some? then {camera.value} else {}
  {
    camera.Some? && camera.value.move
  }

  /** The path `CalculateDestination` splits: the profile's destination (or "") combined with
      the derived name. */
  function Joined(camera: Option<CameraSetting>, name: string): string
    reads if camera.Some? then {camera.value} else {}
  {
    Combine(CameraDestination(camera).OrElse(""), name)
  }

  /** The path `CalculateDestination` derives, or the exception it raises: the one from
      `GetDestinationFileName`, or `Path.Combine`'s when the derived name is null. */
  function DestinationPath(attributes: seq<FileAttribute>, camera: Option<CameraSetting>, globalPriority: Option<string>,
                           dateTimeFormat: Option<string>, env: Env): (r: Result<string>)
    reads if camera.Some? then {camera.value} else {}
  {
    match DestinationNameOf(attributes, camera, globalPriority, dateTimeFormat, env)
    case Fail(message) => Fail(message)
    case Ok(Null) => Fail("Value cannot be null. (Parameter 'path2')")
    case Ok(Some(name)) => Ok(Joined(camera, name))
  }

  /** The first line of `CalculateDestination`. */
  method JoinDestination(attributes: seq<FileAttribute>, camera: Option<CameraSetting>, globalPriority: Option<string>,
                         dateTimeFormat: Option<string>, env: Env)
    returns (r: Result<string>)
    ensures r == DestinationPath(attributes, camera, globalPriority, dateTimeFormat, env)
  {
    var name := GetDestinationFileName(attributes, camera, globalPriority, dateTimeFormat, env);
    if name.Fail? {
      return Fail(name.message);
    }
    if name.value.Null? {
      return Fail("Value cannot be null. (Parameter 'path2')");
    }
    r := Ok(Combine(if camera.Some? && camera.value.destination.Some? then camera.value.destination.value else "", name.value.value));
  }

  /** A joined destination cut into the directory and the file name the setters store. */
  function SplitDestination(full: string): (r: (Option<string>, Option<string>))
    ensures r.1.Some? && AltSeparator !in r.1.value
    ensures r.0.Some? ==> AltSeparator !in r.0.value
  {
    (Canonical(GetDirectoryName(full)), Canonical(Some(GetFileName(full))))
  }

  /** For a well-formed file path, the stored directory and file name combine back into the
      path, and the file name holds no separator: every separator has moved into the
      directory. */
  lemma SplitDestinationRejoins(full: string)
    requires IsFilePath(full)
    ensures SplitDestination(full).0.Some? && SplitDestination(full).1.Some?
    ensures Combine(SplitDestination(full).0.value, SplitDestination(full).1.value) == full
    ensures forall i | 0 <= i < |SplitDestination(full).1.value| :: !IsSeparator(SplitDestination(full).1.value[i])
  {
    CombineDirectoryAndFileName(full);
    var file := GetFileName(full);
    assert AltSeparator !in file by {
      assert forall i | 0 <= i < |file| :: !IsSeparator(file[i]);
    }
  }

  /** The directory and file name `CalculateDestination` stores, or the exception it raises. */
  function DestinationPlan(attributes: seq<FileAttribute>, camera: Option<CameraSetting>, globalPriority: Option<string>,
                           dateTimeFormat: Option<string>, env: Env): (r: Result<(Option<string>, Option<string>)>)
    reads if camera.Some? then {camera.value} else {}
    ensures r.Fail? <==> DestinationPath(attributes, camera, globalPriority, dateTimeFormat, env).Fail?
    ensures r.Ok? ==> r.value == SplitDestination(DestinationPath(attributes, camera, globalPriority, dateTimeFormat, env).value)
  {
    match DestinationPath(attributes, camera, globalPriority, dateTimeFormat, env)
    case Fail(message) => Fail(message)
    case Ok(full) => Ok(SplitDestination(full))
  }

  /** The Selected formula: a directory and a file name are known, the destination does not
      exist yet, and the source is read-only or the profile is not a dashcam's (no profile
      counts as not a dashcam). */
  predicate SelectedFor(directory: Option<string>, fileName: Option<string>, camera: Option<CameraSetting>, disk: Disk, sourceReadOnly: bool)
    reads if camera.Some? then {camera.value} else {}
  {
    && directory.Some? && fileName.Some?
    && !Exists(disk, Combine(directory.value, fileName.value))
    && (sourceReadOnly || camera.Null? || camera.value.cameraType != CameraType.Dashcam)
  }

  /** The position of the first profile at or after `from` whose alias equals `alias`. */
  function FirstWithAlias(cameras: seq<CameraSetting>, alias: Option<string>, from: nat): (r: Option<nat>)
    requires from <= |cameras|
    reads set c | c in cameras
    ensures r.Some? ==> from <= r.value < |cameras| && cameras[r.value].alias == alias
    ensures r.Some? ==> forall j | from <= j < r.value :: cameras[j].alias != alias
    ensures r.Null? ==> forall j | from <= j < |cameras| :: cameras[j].alias != alias
    decreases |cameras| - from
  {
    if from == |cameras| then Null
    else if cameras[from].alias == alias then Some(from)
    else FirstWithAlias(cameras, alias, from + 1)
  }

  /** The only profile with the given alias: null when no profile has the alias, the profile when one has, and an exception when two or more have. */
  function SingleWithAlias(cameras: seq<CameraSetting>, alias: Option<string>): (r: Result<Option<CameraSetting>>)
    reads set c | c in cameras
    ensures r.Fail? <==> exists i, j | 0 <= i < j < |cameras| :: cameras[i].alias == alias && cameras[j].alias == alias
    ensures r == Ok(Null) <==> forall i | 0 <= i < |cameras| :: cameras[i].alias != alias
    ensures r.Ok? && r.value.Some? ==> r.value.value in cameras && r.value.value.alias == alias
  {
    match FirstWithAlias(cameras, alias, 0)
    case Null => Ok(Null)
    case Some(i) =>
      match FirstWithAlias(cameras, alias, i + 1)
      case Some(_) => Fail("Sequence contains more than one matching element")
      case Null => Ok(Some(cameras[i]))
  }

  /** A display root: never empty, since it always ends with a separator. */
  type Root = s: string | s != [] witness [Separator]

  /** A file to be copied or moved. The source path and display root are fixed at
      construction; the profile, the destination, the Selected flag, the status and the error
      message change as the user and the copy run work on it. */
  class CameraFileInfo {
    const sourceDirectoryRoot: Root
    const sourceDirectory: Option<string>
    const sourceFileName: string
    var fileAttributes: seq<FileAttribute>
    var camera: Option<CameraSetting>
    var selected: bool
    var status: StatusType
    var error: Option<string>
    var destinationDirectory: Option<string>
    var destinationFileName: Option<string>
    var move: bool

    /** The record's fixed parts and its attributes, before any profile is assigned: status
        Ready, no error, no destination, not selected. */
    constructor (sourcePath: string, root: Option<string>, attributes: seq<FileAttribute>)
      ensures sourceDirectoryRoot == NormalizeRoot(root)
      ensures sourceDirectory == GetDirectoryName(sourcePath) && sourceFileName == GetFileName(sourcePath)
      ensures fileAttributes == attributes && camera.Null?
      ensures status == StatusType.Ready && error.Null?
      ensures !selected && destinationDirectory.Null? && destinationFileName.Null? && !move
    {
      sourceDirectoryRoot := NormalizeRoot(root);
      sourceDirectory := GetDirectoryName(sourcePath);
      sourceFileName := GetFileName(sourcePath);
      fileAttributes := attributes;
      camera := Null;
      selected := false;
      status := StatusType.Ready;
      error := Null;
      destinationDirectory := Null;
      destinationFileName := Null;
      move := false;
    }

    /** `Source`: the source directory (or "") combined with the file name. */
    function Source(): (r: string)
      ensures sourceDirectory.Null? ==> r == sourceFileName
    {
      Combine(sourceDirectory.OrElse(""), sourceFileName)
    }

    /** `SourceNoRoot`: the source path with every occurrence of the display root removed. */
    function SourceNoRoot(): (r: string)
      ensures |r| <= |Source()|
    {
      ReplaceAll(Source(), sourceDirectoryRoot, "")
    }

    /** A source under the display root, which does not occur again in it, loses exactly
        that prefix. */
    lemma SourceNoRootStripsRoot(rest: string)
      requires Source() == sourceDirectoryRoot + rest && !Contains(rest, sourceDirectoryRoot)
      ensures SourceNoRoot() == rest
    {
      ReplaceAllStripsPrefix(sourceDirectoryRoot, rest);
    }

    /** `Destination`: the destination directory (or "") combined with the file name;
        `Path.Combine` throws on a null file name. */
    function Destination(): (r: Result<string>)
      reads this`destinationDirectory, this`destinationFileName
      ensures r.Fail? <==> destinationFileName.Null?
      ensures r.Ok? && destinationDirectory.Null? ==> r.value == destinationFileName.value
    {
      match destinationFileName
      case Null => Fail("Value cannot be null. (Parameter 'path2')")
      case Some(name) => Ok(Combine(destinationDirectory.OrElse(""), name))
    }

    /** Whether a file already exists at the destination. */
    function DestinationExists(disk: Disk): (r: Result<bool>)
      reads this`destinationDirectory, this`destinationFileName
      ensures r.Fail? <==> Destination().Fail?
      ensures r.Ok? ==> (r.value <==> Exists(disk, Destination().value))
    {
      match Destination()
      case Fail(message) => Fail(message)
      case Ok(path) => Ok(Exists(disk, path))
    }

    /** `Alias`: the profile's alias, null without a profile. */
    function Alias(): (r: Option<string>)
      reads this`camera, if camera.Some? then {camera.value} else {}
      ensures camera.Null? ==> r.Null?
      ensures camera.Some? ==> r == camera.value.alias
    {
      if camera.Some? then camera.value.alias else Null
    }

    method SetDestinationDirectory(value: Option<string>)
      modifies this`destinationDirectory
      ensures destinationDirectory == Canonical(value)
    {
      destinationDirectory := Canonical(value);
    }

    method SetDestinationFileName(value: Option<string>)
      modifies this`destinationFileName
      ensures destinationFileName == Canonical(value)
    {
      destinationFileName := Canonical(value);
    }

    method SetSelected(value: bool)
      modifies this`selected
      ensures selected == value
    {
      selected := value;
    }

    method SetStatus(value: StatusType)
      modifies this`status
      ensures status == value
    {
      status := value;
    }

    method SetError(value: Option<string>)
      modifies this`error
      ensures error == value
    {
      error := value;
    }

    /** `CalculateSelectedState`: `sourceReadOnly` is the given source file's read-only flag,
        or `Null` to look the source up again. A selected record never points at an existing
        file. */
    method CalculateSelectedState(sourceReadOnly: Option<bool>, disk: Disk)
      modifies this`selected
      ensures selected == SelectedFor(destinationDirectory, destinationFileName, camera, disk,
        sourceReadOnly.OrElse(IsReadOnly(disk, Source())))
      ensures selected ==> DestinationExists(disk) == Ok(false)
    {
      var readOnly := if sourceReadOnly.Some? then sourceReadOnly.value else IsReadOnly(disk, Source());
      selected := destinationDirectory.Some? && destinationFileName.Some?
        && !Exists(disk, Combine(destinationDirectory.value, destinationFileName.value))
        && (readOnly || camera.Null? || camera.value.cameraType != CameraType.Dashcam);
    }

    /** The fields `CalculateDestination` sets. */
    function Placement(): (Option<string>, Option<string>, bool, bool)
      reads this`destinationDirectory, this`destinationFileName, this`selected, this`move
    {
      (destinationDirectory, destinationFileName, selected, move)
    }

    /** The record holds the directory and file name of `plan`, the Selected flag they call
        for, and the profile's Move flag. */
    predicate Placed(plan: (Option<string>, Option<string>), disk: Disk, sourceReadOnly: bool)
      reads this, if camera.Some? then {camera.value} else {}
    {
      && destinationDirectory == plan.0 && destinationFileName == plan.1
      && selected == SelectedFor(plan.0, plan.1, camera, disk, sourceReadOnly)
      && move == CameraMove(camera)
    }

    /** `CalculateDestination`: derives the name, splits the joined path into directory and
        file name, recomputes Selected and copies the profile's Move flag. An exception
        leaves every field as it was. */
    method CalculateDestination(sourceReadOnly: Option<bool>, globalPriority: Option<string>, dateTimeFormat: Option<string>,
                                env: Env, disk: Disk)
      returns (outcome: Outcome)
      modifies this`destinationDirectory, this`destinationFileName, this`selected, this`move
      ensures DestinationPlan(fileAttributes, camera, globalPriority, dateTimeFormat, env).Fail? ==>
        (outcome == Raised(DestinationPlan(fileAttributes, camera, globalPriority, dateTimeFormat, env).message) &&
         Placement() == old(Placement()))
      ensures DestinationPlan(fileAttributes, camera, globalPriority, dateTimeFormat, env).Ok? ==>
        (outcome == Done &&
         Placed(DestinationPlan(fileAttributes, camera, globalPriority, dateTimeFormat, env).value, disk,
           sourceReadOnly.OrElse(IsReadOnly(disk, Source()))))
      ensures outcome == Done && selected ==> DestinationExists(disk) == Ok(false)
    {
      hide DestinationPath, SplitDestination, IsReadOnly, Source, Placed, DestinationExists;
      var destination := JoinDestination(fileAttributes, camera, globalPriority, dateTimeFormat, env);
      if destination.Fail? {
        return Raised(destination.message);
      }
      Place(destination.value, sourceReadOnly, disk);
      outcome := Done;
    }

    /** The rest of `CalculateDestination` once the path is derived: the directory and file
        name through their setters, then Selected and Move. */
    method Place(destination: string, sourceReadOnly: Option<bool>, disk: Disk)
      modifies this`destinationDirectory, this`destinationFileName, this`selected, this`move
      ensures Placed(SplitDestination(destination), disk, sourceReadOnly.OrElse(IsReadOnly(disk, Source())))
      ensures selected ==> DestinationExists(disk) == Ok(false)
    {
      SetDestinationDirectory(GetDirectoryName(destination));
      SetDestinationFileName(Some(GetFileName(destination)));
      CalculateSelectedState(sourceReadOnly, disk);
      move := camera.Some? && camera.value.move;
    }

    /** The Camera setter: stores the profile and always recomputes the destination, Selected
        and Move; when that throws, the new profile stays assigned. */
    method SetCamera(value: Option<CameraSetting>, globalPriority: Option<string>, dateTimeFormat: Option<string>,
                     env: Env, disk: Disk)
      returns (outcome: Outcome)
      modifies this`camera, this`destinationDirectory, this`destinationFileName, this`selected, this`move
      ensures camera == value
      ensures DestinationPlan(fileAttributes, value, globalPriority, dateTimeFormat, env).Fail? ==>
        (outcome == Raised(DestinationPlan(fileAttributes, value, globalPriority, dateTimeFormat, env).message) &&
         Placement() == old(Placement()))
      ensures DestinationPlan(fileAttributes, value, globalPriority, dateTimeFormat, env).Ok? ==>
        (outcome == Done &&
         Placed(DestinationPlan(fileAttributes, value, globalPriority, dateTimeFormat, env).value, disk, IsReadOnly(disk, Source())))
    {
      hide DestinationPlan, DestinationPath, SplitDestination, IsReadOnly, Source, Placed;
      camera := value;
      outcome := CalculateDestination(Null, globalPriority, dateTimeFormat, env, disk);
    }

    /** The Alias setter: assigns the single profile with that alias, or no profile when
        none has it; two profiles with the alias throw and leave the record as it was. */
    method SetAlias(value: Option<string>, cameras: seq<CameraSetting>, globalPriority: Option<string>,
                    dateTimeFormat: Option<string>, env: Env, disk: Disk)
      returns (outcome: Outcome)
      modifies this`camera, this`destinationDirectory, this`destinationFileName, this`selected, this`move
      ensures SingleWithAlias(cameras, value).Fail? ==>
        (outcome == Raised(SingleWithAlias(cameras, value).message) &&
         camera == old(camera) && Placement() == old(Placement()))
      ensures SingleWithAlias(cameras, value).Ok? ==> camera == SingleWithAlias(cameras, value).value
      ensures SingleWithAlias(cameras, value).Ok? &&
              DestinationPlan(fileAttributes, SingleWithAlias(cameras, value).value, globalPriority, dateTimeFormat, env).Fail? ==>
        (outcome == Raised(DestinationPlan(fileAttributes, SingleWithAlias(cameras, value).value, globalPriority, dateTimeFormat, env).message) &&
         Placement() == old(Placement()))
      ensures SingleWithAlias(cameras, value).Ok? &&
              DestinationPlan(fileAttributes, SingleWithAlias(cameras, value).value, globalPriority, dateTimeFormat, env).Ok? ==>
        (outcome == Done &&
         Placed(DestinationPlan(fileAttributes, SingleWithAlias(cameras, value).value, globalPriority, dateTimeFormat, env).value,
                disk, IsReadOnly(disk, Source())))
      ensures SingleWithAlias(cameras, value).Ok? && camera.Some? ==> Alias() == value
      ensures SingleWithAlias(cameras, value) == Ok(Null) ==> Alias().Null?
    {
      hide DestinationPlan, DestinationPath, SplitDestination, IsReadOnly, Source, Placed;
      var found := SingleWithAlias(cameras, value);
      if found.Fail? {
        return Raised(found.message);
      }
      outcome := SetCamera(found.value, globalPriority, dateTimeFormat, env, disk);
    }
  }

  /** The profile the constructor assigns: the given one, else the one `GetCamera` finds. */
  function AssignedCamera(attributes: seq<FileAttribute>, given: Option<CameraSetting>, cameras: seq<CameraSetting>, disk: Disk)
    : (r: Result<Option<CameraSetting>>)
    reads set c | c in cameras
    ensures given.Some? ==> r == Ok(given)
    ensures given.Null? ==> r == GetCamera(attributes, cameras, disk)
  {
    if given.Some? then Ok(given) else GetCamera(attributes, cameras, disk)
  }

  /** The attributes the constructor reads for a path, sorted by name. */
  function SortedAttributes(sourcePath: string, env: Env): (r: Result<seq<FileAttribute>>)
    ensures r.Ok? <==> Extracted(env.metadata(sourcePath)).Ok?
  {
    match Extracted(env.metadata(sourcePath))
    case Fail(message) => Fail(message)
    case Ok(attributes) => Ok(SortByName(attributes, env.compare))
  }

  /** The constructor succeeds for this path: the attributes can be read, the profile can be
      found, and the destination can be derived. */
  predicate Loadable(sourcePath: string, given: Option<CameraSetting>, cameras: seq<CameraSetting>,
                     globalPriority: Option<string>, dateTimeFormat: Option<string>, env: Env, disk: Disk)
    reads set c | c in cameras, if given.Some? then {given.value} else {}
  {
    && SortedAttributes(sourcePath, env).Ok?
    && AssignedCamera(SortedAttributes(sourcePath, env).value, given, cameras, disk).Ok?
    && DestinationPlan(SortedAttributes(sourcePath, env).value, AssignedCamera(SortedAttributes(sourcePath, env).value, given, cameras, disk).value,
         globalPriority, dateTimeFormat, env).Ok?
  }

  /** `info` is what the constructor builds for this path, root and profile. */
  predicate LoadedFrom(info: CameraFileInfo, sourcePath: string, root: Option<string>, given: Option<CameraSetting>, cameras: seq<CameraSetting>,
                       globalPriority: Option<string>, dateTimeFormat: Option<string>, env: Env, disk: Disk)
    reads info, if info.camera.Some? then {info.camera.value} else {}, set c | c in cameras, if given.Some? then {given.value} else {}
  {
    && SortedAttributes(sourcePath, env) == Ok(info.fileAttributes)
    && AssignedCamera(info.fileAttributes, given, cameras, disk) == Ok(info.camera)
    && Initialized(info, sourcePath, root, info.fileAttributes, info.camera, globalPriority, dateTimeFormat, env, disk)
  }

  /** A record the constructor built means the constructor succeeds for its path. */
  lemma LoadedFromIsLoadable(info: CameraFileInfo, sourcePath: string, root: Option<string>, given: Option<CameraSetting>,
                             cameras: seq<CameraSetting>, globalPriority: Option<string>, dateTimeFormat: Option<string>, env: Env, disk: Disk)
    requires LoadedFrom(info, sourcePath, root, given, cameras, globalPriority, dateTimeFormat, env, disk)
    ensures Loadable(sourcePath, given, cameras, globalPriority, dateTimeFormat, env, disk)
  {
  }

  /** The record's constructor: reads the source's attributes, takes the given profile or
      else the one `GetCamera` finds, and derives the destination. It throws when the
      attributes cannot be read, when `GetCamera` throws, or when the destination cannot be
      derived. */
  method NewCameraFileInfo(sourcePath: string, root: Option<string>, given: Option<CameraSetting>, cameras: seq<CameraSetting>,
                           globalPriority: Option<string>, dateTimeFormat: Option<string>, env: Env, disk: Disk)
    returns (r: Result<CameraFileInfo>)
    ensures r.Fail? ==> !Loadable(sourcePath, given, cameras, globalPriority, dateTimeFormat, env, disk)
    ensures r.Ok? ==> fresh(r.value) && LoadedFrom(r.value, sourcePath, root, given, cameras, globalPriority, dateTimeFormat, env, disk)
  {
    var attributes := GetFileAttributes(env.metadata(sourcePath), env.compare);
    if attributes.Fail? {
      return Fail(attributes.message);
    }
    assert SortedAttributes(sourcePath, env) == Ok(attributes.value);
    var camera := AssignCamera(attributes.value, given, cameras, disk);
    if camera.Fail? {
      return Fail(camera.message);
    }
    r := Construct(sourcePath, root, attributes.value, camera.value, globalPriority, dateTimeFormat, env, disk);
  }

  /** The given profile, or when there is none the one the attributes name. */
  method AssignCamera(attributes: seq<FileAttribute>, given: Option<CameraSetting>, cameras: seq<CameraSetting>, disk: Disk)
    returns (r: Result<Option<CameraSetting>>)
    ensures r == AssignedCamera(attributes, given, cameras, disk)
  {
    if given.Some? {
      return Ok(given);
    }
    r := GetCamera(attributes, cameras, disk);
  }

  /** A record as the constructor leaves it: the fixed parts from the source path and the
      root, the given attributes and profile, status Ready and no error, and the destination,
      Selected and Move derived, Selected from the source file's own read-only flag. */
  predicate Initialized(info: CameraFileInfo, sourcePath: string, root: Option<string>, attributes: seq<FileAttribute>,
                        camera: Option<CameraSetting>, globalPriority: Option<string>, dateTimeFormat: Option<string>, env: Env, disk: Disk)
    reads info, if camera.Some? then {camera.value} else {}
  {
    && info.sourceDirectory == GetDirectoryName(sourcePath) && info.sourceFileName == GetFileName(sourcePath)
    && info.sourceDirectoryRoot == NormalizeRoot(root)
    && info.fileAttributes == attributes && info.camera == camera
    && info.status == StatusType.Ready && info.error.Null?
    && DestinationPlan(attributes, camera, globalPriority, dateTimeFormat, env).Ok?
    && info.Placed(DestinationPlan(attributes, camera, globalPriority, dateTimeFormat, env).value, disk, IsReadOnly(disk, sourcePath))
  }

  /** The constructor once the attributes and the profile are known: the Camera setter, then
      `CalculateDestination` with the source file itself. */
  method Construct(sourcePath: string, root: Option<string>, attributes: seq<FileAttribute>, camera: Option<CameraSetting>,
                   globalPriority: Option<string>, dateTimeFormat: Option<string>, env: Env, disk: Disk)
    returns (r: Result<CameraFileInfo>)
    ensures r.Ok? <==> DestinationPlan(attributes, camera, globalPriority, dateTimeFormat, env).Ok?
    ensures r.Ok? ==> fresh(r.value) && Initialized(r.value, sourcePath, root, attributes, camera, globalPriority, dateTimeFormat, env, disk)
  {
    hide DestinationPlan, DestinationPath, SplitDestination, IsReadOnly, CameraFileInfo.Source, GetDirectoryName, GetFileName, NormalizeRoot;
    var info := new CameraFileInfo(sourcePath, root, attributes);
    var outcome := info.SetCamera(camera, globalPriority, dateTimeFormat, env, disk);
    assert info.status == StatusType.Ready && info.error.Null?;
    if outcome.Raised? {
      return Fail(outcome.message);
    }
    outcome := info.CalculateDestination(Some(IsReadOnly(disk, sourcePath)), globalPriority, dateTimeFormat, env, disk);
    assert info.status == StatusType.Ready && info.error.Null?;
    r := Ok(info);
  }
}
