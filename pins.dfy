/**
 * The in-memory edit of `update_pin`: find the first pin with the given camera
 * id and overwrite that pin's name, position and camera id in place.
 */
module PinEdit {
  import opened Records

  /** Pin `k` is the first pin whose camera id is `cameraId`. */
  predicate IsFirstPin(pins: seq<Pin>, cameraId: Label, k: int) {
    && 0 <= k < |pins|
    && pins[k].cameraId == cameraId
    && (forall j :: 0 <= j < k ==> pins[j].cameraId != cameraId)
  }

  /** The pin as it reads after the four field assignments. */
  function Edited(pin: Pin, name: string, newCameraId: Label, latitude: real, longitude: real): (edited: Pin)
    ensures edited == Pin(name, newCameraId, latitude, longitude)
  {
    pin.(name := name, latitude := latitude, longitude := longitude, cameraId := newCameraId)
  }

  /** The pin list after the edit, scanning from the front. */
  function UpdatedPins(pins: seq<Pin>, cameraId: Label, name: string, newCameraId: Label,
                       latitude: real, longitude: real): (updated: seq<Pin>)
    ensures |updated| == |pins|
    ensures forall i :: 0 <= i < |pins| && pins[i].cameraId != cameraId ==> updated[i] == pins[i]
  {
    if pins == [] then []
    else if pins[0].cameraId == cameraId then [Edited(pins[0], name, newCameraId, latitude, longitude)] + pins[1..]
    else [pins[0]] + UpdatedPins(pins[1..], cameraId, name, newCameraId, latitude, longitude)
  }

  /** Only the first matching pin changes, and it takes all four new values. */
  lemma {:induction false} UpdatedPinsFirstMatch(pins: seq<Pin>, cameraId: Label, name: string, newCameraId: Label,
                                                 latitude: real, longitude: real, k: int)
    requires IsFirstPin(pins, cameraId, k)
    ensures UpdatedPins(pins, cameraId, name, newCameraId, latitude, longitude)
      == pins[k := Pin(name, newCameraId, latitude, longitude)]
  {
    if k > 0 {
      assert pins[0].cameraId != cameraId;
      UpdatedPinsFirstMatch(pins[1..], cameraId, name, newCameraId, latitude, longitude, k - 1);
      assert pins[k := Pin(name, newCameraId, latitude, longitude)]
        == [pins[0]] + pins[1..][k - 1 := Pin(name, newCameraId, latitude, longitude)];
    }
  }

  /** Without a matching pin the list is unchanged. */
  lemma {:induction false} UpdatedPinsNoMatch(pins: seq<Pin>, cameraId: Label, name: string, newCameraId: Label,
                                              latitude: real, longitude: real)
    requires forall i :: 0 <= i < |pins| ==> pins[i].cameraId != cameraId
    ensures UpdatedPins(pins, cameraId, name, newCameraId, latitude, longitude) == pins
  {
    if pins != [] {
      UpdatedPinsNoMatch(pins[1..], cameraId, name, newCameraId, latitude, longitude);
      assert [pins[0]] + pins[1..] == pins;
    }
  }

  /** `gps_pins.findIndex(pin => pin.camera_id === cameraId)`: the first match, or -1. */
  method FindPinIndex(pins: array<Pin>, cameraId: Label) returns (index: int)
    ensures index == -1 <==> forall i :: 0 <= i < pins.Length ==> pins[i].cameraId != cameraId
    ensures index != -1 ==> IsFirstPin(pins[..], cameraId, index)
  {
    index := 0;
    while index < pins.Length
      invariant 0 <= index <= pins.Length
      invariant forall j :: 0 <= j < index ==> pins[j].cameraId != cameraId
    {
      if pins[index].cameraId == cameraId {
        return;
      }
      index := index + 1;
    }
    index := -1;
  }

  /**
   * The edit: when some pin has camera id `cameraId`, the first such pin gets
   * the new name, latitude, longitude and camera id and `found` is true
   * ("Pin updated successfully"); otherwise nothing changes ("Pin not found").
   */
  method UpdatePin(pins: array<Pin>, cameraId: Label, name: string, newCameraId: Label,
                   latitude: real, longitude: real) returns (found: bool)
    modifies pins
    ensures found <==> cameraId in PinCameraIds(old(pins[..]))
    ensures pins[..] == UpdatedPins(old(pins[..]), cameraId, name, newCameraId, latitude, longitude)
  {
    var index := FindPinIndex(pins, cameraId);
    if index != -1 {
      UpdatedPinsFirstMatch(pins[..], cameraId, name, newCameraId, latitude, longitude, index);
      pins[index] := Edited(pins[index], name, newCameraId, latitude, longitude);
      found := true;
    } else {
      UpdatedPinsNoMatch(pins[..], cameraId, name, newCameraId, latitude, longitude);
      found := false;
    }
  }
}
