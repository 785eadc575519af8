/** The library's enumerations. */
module Enumerations {

  /** Kinds of camera a profile can describe. */
  datatype CameraType = None | Camera | Video | Phone | Drone | Dashcam | Scanner

  /** How a run treats each file: by its own Move flag (`Run`), or forced to move, copy,
      rename in place, or only pretend. */
  datatype CopyType = Run | Move | Copy | Rename | Demonstration

  /** The state of one file record. */
  datatype StatusType = Ready | Success | Processing | Failed | Canceled | Skipped

  /** Kinds of progress report. */
  datatype ProgressType = Info | Initialization | CopyStart | CopyFinish | Completed

  /** The camera types in declaration order. */
  const AllCameraTypes: seq<CameraType> := [CameraType.None, CameraType.Camera, Video, Phone, Drone, Dashcam, Scanner]

  /** The declared value of a camera type: its position in the declaration. */
  function CameraTypeOrdinal(t: CameraType): (n: nat)
    ensures n < |AllCameraTypes| && AllCameraTypes[n] == t
  {
    match t
    case None => 0
    case Camera => 1
    case Video => 2
    case Phone => 3
    case Drone => 4
    case Dashcam => 5
    case Scanner => 6
  }

  /** `Enum.GetName` for a camera type. */
  function CameraTypeName(t: CameraType): string {
    match t
    case None => "None"
    case Camera => "Camera"
    case Video => "Video"
    case Phone => "Phone"
    case Drone => "Drone"
    case Dashcam => "Dashcam"
    case Scanner => "Scanner"
  }
}
