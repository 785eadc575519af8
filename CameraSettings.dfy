/** A camera profile, and the "CFM" hint file that records which profile a removable drive
    belongs to. */
module CameraSettings {
  import opened Wrappers
  import opened Text
  import opened Paths
  import opened Enumerations
  import opened Platform

  /** A camera profile. Every property is a plain field; each setter stores the given value
      and touches nothing else. */
  class CameraSetting {
    var enabled: bool
    var cameraType: CameraType
    var alias: Option<string>
    var make: Option<string>
    var model: Option<string>
    var destination: Option<string>
    var format: Option<string>
    var dateTimePriority: Option<string>
    var move: bool

    /** A new profile: disabled, type None, no strings, Move off. */
    constructor ()
      ensures !enabled && cameraType == CameraType.None && !move
      ensures alias.Null? && make.Null? && model.Null? && destination.Null?
      ensures format.Null? && dateTimePriority.Null?
    {
      enabled := false;
      cameraType := CameraType.None;
      alias := Null;
      make := Null;
      model := Null;
      destination := Null;
      format := Null;
      dateTimePriority := Null;
      move := false;
    }

    method SetEnabled(value: bool)
      modifies this`enabled
      ensures enabled == value
    {
      enabled := value;
    }

    method SetType(value: CameraType)
      modifies this`cameraType
      ensures cameraType == value
    {
      cameraType := value;
    }

    method SetAlias(value: Option<string>)
      modifies this`alias
      ensures alias == value
    {
      alias := value;
    }

    method SetMake(value: Option<string>)
      modifies this`make
      ensures make == value
    {
      make := value;
    }

    method SetModel(value: Option<string>)
      modifies this`model
      ensures model == value
    {
      model := value;
    }

    method SetDestination(value: Option<string>)
      modifies this`destination
      ensures destination == value
    {
      destination := value;
    }

    method SetFormat(value: Option<string>)
      modifies this`format
      ensures format == value
    {
      format := value;
    }

    method SetDateTimePriority(value: Option<string>)
      modifies this`dateTimePriority
      ensures dateTimePriority == value
    {
      dateTimePriority := value;
    }

    method SetMove(value: bool)
      modifies this`move
      ensures move == value
    {
      move := value;
    }
  }

  /** `CameraTypes`: the names of the camera types in declaration order. */
  function CameraTypes(): (r: seq<string>)
    ensures |r| == |AllCameraTypes|
    ensures forall i | 0 <= i < |r| :: r[i] == CameraTypeName(AllCameraTypes[i])
  {
    ["None", "Camera", "Video", "Phone", "Drone", "Dashcam", "Scanner"]
  }

  /** Every camera type appears in the list exactly once, at its declared value. */
  lemma CameraTypesNamesEachType(t: CameraType)
    ensures CameraTypes()[CameraTypeOrdinal(t)] == CameraTypeName(t)
    ensures forall i | 0 <= i < |CameraTypes()| && CameraTypes()[i] == CameraTypeName(t) :: i == CameraTypeOrdinal(t)
  {
    var names := CameraTypes();
    forall i | 0 <= i < |names| && names[i] == CameraTypeName(t) ensures i == CameraTypeOrdinal(t) {
      assert AllCameraTypes[i] == t by {
        assert names[i] == CameraTypeName(AllCameraTypes[i]);
      }
    }
  }

  /** The hint file's name. */
  const HintFileName: string := "CFM"

  /** The hint file for a directory: "CFM" at the directory's path root. `Path.Combine`
      rejects the null root of an effectively empty path. */
  function HintFile(directory: string): (r: Result<string>)
    ensures r.Ok? <==> GetPathRoot(directory).Some?
    ensures r.Ok? ==> r.value == Combine(GetPathRoot(directory).value, HintFileName)
  {
    match GetPathRoot(directory)
    case Null => Fail("Value cannot be null. (Parameter 'path1')")
    case Some(root) => Ok(Combine(root, HintFileName))
  }

  /** `SetPersistedCamera`: writes the profile's alias (a null alias writes an empty file). */
  function SetPersistedCamera(camera: CameraSetting, directory: string, disk: Disk): (r: Result<Disk>)
    reads camera
    ensures r.Ok? ==> HintFile(directory).Ok? && Exists(r.value, HintFile(directory).value)
    ensures r.Ok? ==> forall p | p != HintFile(directory).value ::
      (Exists(r.value, p) <==> Exists(disk, p)) && (Exists(disk, p) ==> r.value.files[p] == disk.files[p])
    ensures r.Fail? <==> HintFile(directory).Fail? || (Exists(disk, HintFile(directory).value) && disk.files[HintFile(directory).value].readOnly)
  {
    match HintFile(directory)
    case Fail(message) => Fail(message)
    case Ok(file) => WriteAllText(disk, file, camera.alias.OrElse(""))
  }

  /** `GetPersistedCamera`: the hint file's text, or Null when there is no hint file. */
  function GetPersistedCamera(directory: string, disk: Disk): (r: Result<Option<string>>)
    ensures r.Fail? <==> HintFile(directory).Fail?
    ensures r.Ok? ==> (r.value.Some? <==> Exists(disk, HintFile(directory).value))
    ensures r.Ok? && r.value.Some? ==> r.value.value == disk.files[HintFile(directory).value].text
  {
    match HintFile(directory)
    case Fail(message) => Fail(message)
    case Ok(file) => if Exists(disk, file) then Ok(Some(disk.files[file].text)) else Ok(Null)
  }

  /** What one directory records, any directory on the same drive reads back. */
  lemma PersistedCameraRoundTrip(camera: CameraSetting, directory: string, other: string, disk: Disk)
    requires SetPersistedCamera(camera, directory, disk).Ok?
    requires GetPathRoot(other) == GetPathRoot(directory)
    ensures GetPersistedCamera(other, SetPersistedCamera(camera, directory, disk).value) == Ok(Some(camera.alias.OrElse("")))
  {
  }
}
