/** The records the upload-summary query reads and produces. */
module Records {

  /** A label is a camera id or an animal name; both are plain strings. */
  type Label = string

  /** One entry of a user's `uploads` list: metadata of one trail-camera capture. */
  datatype Upload = Upload(
    filepath: string,
    cameraId: Label,
    animal: Label,
    pulledData: string,
    date: string,
    time: string)

  /**
   * One entry of a user's `gps_pins` list. Latitude and longitude are only
   * stored and handed back, never computed on.
   */
  datatype Pin = Pin(name: string, cameraId: Label, latitude: real, longitude: real)

  /** One `{label, count}` element of the grouped data; `label` is a Dafny keyword, so the field is `key`. */
  datatype Group = Group(key: Label, count: nat)

  datatype Option<+T> = None | Some(value: T)

  datatype Result<+R, +E> = Success(value: R) | Failure(error: E)

  /** The camera id of every pin, in list order (`gps_pins.map(pin => pin.camera_id)`). */
  function PinCameraIds(pins: seq<Pin>): (ids: seq<Label>)
    ensures |ids| == |pins|
    ensures forall i :: 0 <= i < |pins| ==> ids[i] == pins[i].cameraId
  {
    seq(|pins|, i requires 0 <= i < |pins| => pins[i].cameraId)
  }

  /** The labels (`key` fields) of a list of groups, in order. */
  function Labels(groups: seq<Group>): (ls: seq<Label>)
    ensures |ls| == |groups|
    ensures forall i :: 0 <= i < |groups| ==> ls[i] == groups[i].key
  {
    seq(|groups|, i requires 0 <= i < |groups| => groups[i].key)
  }
}
