/**
 * The two grouping branches of the upload-summary query.
 *
 * "animal" axis: the caller names an animal; the groups are the user's pinned
 * cameras (distinct pin camera ids, first-seen order), each counting the uploads
 * of that animal from that camera.
 * "camera" axis: the caller names a camera; the groups are the animals seen in
 * that camera's uploads (first-seen order), each counting its uploads.
 */
module Aggregator {
  import opened Records
  import opened Counting

  /** `uploads.filter(upload => upload.animal === animal)` */
  function WithAnimal(uploads: seq<Upload>, animal: Label): (r: seq<Upload>)
    ensures forall u :: u in r <==> u in uploads && u.animal == animal
  {
    if uploads == [] then []
    else
      var u := uploads[|uploads| - 1];
      WithAnimal(uploads[..|uploads| - 1], animal) + (if u.animal == animal then [u] else [])
  }

  /** `uploads.filter(upload => upload.camera_id === camera)` */
  function AtCamera(uploads: seq<Upload>, camera: Label): (r: seq<Upload>)
    ensures forall u :: u in r <==> u in uploads && u.cameraId == camera
  {
    if uploads == [] then []
    else
      var u := uploads[|uploads| - 1];
      AtCamera(uploads[..|uploads| - 1], camera) + (if u.cameraId == camera then [u] else [])
  }

  /** The animal filter keeps every matching upload as often as it occurs, and nothing else. */
  lemma {:induction false} WithAnimalKeepsRepeats(uploads: seq<Upload>, animal: Label)
    ensures forall u ::
              multiset(WithAnimal(uploads, animal))[u] == if u.animal == animal then multiset(uploads)[u] else 0
  {
    if uploads != [] {
      var p, last := uploads[..|uploads| - 1], uploads[|uploads| - 1];
      WithAnimalKeepsRepeats(p, animal);
      assert uploads == p + [last];
    }
  }

  /** The camera filter keeps every matching upload as often as it occurs, and nothing else. */
  lemma {:induction false} AtCameraKeepsRepeats(uploads: seq<Upload>, camera: Label)
    ensures forall u ::
              multiset(AtCamera(uploads, camera))[u] == if u.cameraId == camera then multiset(uploads)[u] else 0
  {
    if uploads != [] {
      var p, last := uploads[..|uploads| - 1], uploads[|uploads| - 1];
      AtCameraKeepsRepeats(p, camera);
      assert uploads == p + [last];
    }
  }

  /** The camera id of each upload, in order. */
  function CameraIds(uploads: seq<Upload>): (ids: seq<Label>)
    ensures |ids| == |uploads|
    ensures forall i :: 0 <= i < |uploads| ==> ids[i] == uploads[i].cameraId
  {
    if uploads == [] then [] else CameraIds(uploads[..|uploads| - 1]) + [uploads[|uploads| - 1].cameraId]
  }

  /** The animal of each upload, in order. */
  function Animals(uploads: seq<Upload>): (names: seq<Label>)
    ensures |names| == |uploads|
    ensures forall i :: 0 <= i < |uploads| ==> names[i] == uploads[i].animal
  {
    if uploads == [] then [] else Animals(uploads[..|uploads| - 1]) + [uploads[|uploads| - 1].animal]
  }

  /** Reference count: the uploads showing `animal` taken by `camera`. */
  function Sightings(uploads: seq<Upload>, animal: Label, camera: Label): nat {
    if uploads == [] then 0
    else
      var u := uploads[|uploads| - 1];
      Sightings(uploads[..|uploads| - 1], animal, camera)
        + (if u.animal == animal && u.cameraId == camera then 1 else 0)
  }

  /** The grouped data of the "animal" axis. */
  function AnimalAxis(uploads: seq<Upload>, pins: seq<Pin>, animal: Label): (groups: seq<Group>)
    ensures Labels(groups) == Distinct(PinCameraIds(pins))
  {
    Tally(Distinct(PinCameraIds(pins)), CameraIds(WithAnimal(uploads, animal)))
  }

  /** The grouped data of the "camera" axis. */
  function CameraAxis(uploads: seq<Upload>, camera: Label): (groups: seq<Group>)
    ensures NoDuplicates(Labels(groups))
    ensures forall a :: a in Labels(groups) <==> a in Animals(AtCamera(uploads, camera))
  {
    var seen := Animals(AtCamera(uploads, camera));
    Tally(Distinct(seen), seen)
  }

  // ---------------------------------------------------------------------------
  // The branches as the handler runs them: accumulator objects filled in loops.
  // ---------------------------------------------------------------------------

  /** `[...new Set(pins.map(pin => pin.camera_id))]`: pin camera ids, de-duplicated in first-seen order. */
  method CollectCameras(pins: seq<Pin>) returns (cameras: seq<Label>)
    ensures cameras == Distinct(PinCameraIds(pins))
  {
    var ids := PinCameraIds(pins);
    var seen: set<Label> := {};
    cameras := [];
    var i := 0;
    while i < |ids|
      invariant 0 <= i <= |ids|
      invariant cameras == Distinct(ids[..i])
      invariant seen == ToSet(ids[..i])
    {
      assert ids[..i + 1][..i] == ids[..i];
      if ids[i] !in seen {
        seen := seen + {ids[i]};
        cameras := cameras + [ids[i]];
      } else {
        assert ids[i] in ids[..i];
      }
      assert ToSet(ids[..i + 1]) == ToSet(ids[..i]) + {ids[i]};
      i := i + 1;
    }
    assert ids[..i] == ids;
  }

  /**
   * The "animal" branch: for each pinned camera, `acc[camera_id] = count` with
   * `count` the matching uploads from that camera; then one `{label, count}`
   * per camera, reading `groupedUploads[camera_id] || 0`.
   */
  method GroupCamerasForAnimal(uploads: seq<Upload>, pins: seq<Pin>, animal: Label)
    returns (groups: seq<Group>)
    ensures groups == AnimalAxis(uploads, pins, animal)
  {
    var cameras := CollectCameras(pins);
    var filtered := WithAnimal(uploads, animal);
    ghost var seen := CameraIds(filtered);
    var acc: map<Label, nat> := map[];
    var i := 0;
    while i < |cameras|
      invariant 0 <= i <= |cameras|
      invariant forall c :: c in acc <==> c in cameras[..i]
      invariant forall c :: c in acc ==> acc[c] == Occurrences(seen, c)
    {
      AtCameraLength(filtered, cameras[i]);
      acc := acc[cameras[i] := |AtCamera(filtered, cameras[i])|];
      PrefixSnoc(cameras, i);
      i := i + 1;
    }
    assert cameras[..i] == cameras;
    groups := seq(|cameras|, k requires 0 <= k < |cameras| =>
      Group(cameras[k], if cameras[k] in acc then acc[cameras[k]] else 0));
    assert forall k :: 0 <= k < |cameras| ==> groups[k] == Tally(cameras, seen)[k];
  }

  /**
   * The "camera" branch: over the camera's uploads, `acc[upload.animal]` is
   * created at 0 on first sight and then incremented; the groups are the keys in
   * insertion order with their counts.
   */
  method GroupAnimalsAtCamera(uploads: seq<Upload>, camera: Label) returns (groups: seq<Group>)
    ensures groups == CameraAxis(uploads, camera)
  {
    var filtered := AtCamera(uploads, camera);
    var keys: seq<Label> := [];
    var acc: map<Label, nat> := map[];
    var i := 0;
    while i < |filtered|
      invariant 0 <= i <= |filtered|
      invariant Counted(keys, acc, Animals(filtered[..i]))
    {
      var a := filtered[i].animal;
      ghost var keys0, acc0, seen := keys, acc, Animals(filtered[..i]);
      if a !in acc {
        acc := acc[a := 0];
        keys := keys + [a];
      }
      acc := acc[a := acc[a] + 1];
      CountedNext(filtered, i, keys0, acc0, keys, acc);
      i := i + 1;
    }
    assert filtered[..i] == filtered;
    groups := seq(|keys|, k requires 0 <= k < |keys| => Group(keys[k], acc[keys[k]]));
    CountedTally(keys, acc, Animals(filtered));
  }

  /** The accumulator of the "camera" branch after reading `seen`: keys in insertion order, with their counts. */
  ghost predicate Counted(keys: seq<Label>, acc: map<Label, nat>, seen: seq<Label>) {
    && keys == Distinct(seen)
    && (forall a :: a in acc <==> a in keys)
    && (forall a :: a in acc ==> acc[a] == Occurrences(seen, a))
  }

  /** One step of `if (!acc[a]) acc[a] = 0; acc[a]++` keeps the accumulator exact. */
  /** The loop step of `GroupAnimalsAtCamera`, stated over the filtered uploads. */
  lemma CountedNext(filtered: seq<Upload>, i: nat, keys: seq<Label>, acc: map<Label, nat>,
                    keys': seq<Label>, acc': map<Label, nat>)
    requires i < |filtered| && Counted(keys, acc, Animals(filtered[..i]))
    requires keys' == if filtered[i].animal in acc then keys else keys + [filtered[i].animal]
    requires acc' == if filtered[i].animal in acc then acc[filtered[i].animal := acc[filtered[i].animal] + 1]
                     else acc[filtered[i].animal := 1]
    ensures Counted(keys', acc', Animals(filtered[..i + 1]))
  {
    CountedStep(keys, acc, Animals(filtered[..i]), filtered[i].animal, keys', acc');
    PrefixSnoc(filtered, i);
    AnimalsAppend(filtered[..i], filtered[i]);
  }

  /** The groups read off a finished accumulator are the tally of what was seen. */
  lemma CountedTally(keys: seq<Label>, acc: map<Label, nat>, seen: seq<Label>)
    requires Counted(keys, acc, seen)
    ensures seq(|keys|, k requires 0 <= k < |keys| => Group(keys[k], acc[keys[k]])) == Tally(Distinct(seen), seen)
  {
    var groups := seq(|keys|, k requires 0 <= k < |keys| => Group(keys[k], acc[keys[k]]));
    assert forall k :: 0 <= k < |keys| ==> groups[k] == Tally(keys, seen)[k];
  }

  lemma CountedStep(keys: seq<Label>, acc: map<Label, nat>, seen: seq<Label>, a: Label,
                    keys': seq<Label>, acc': map<Label, nat>)
    requires Counted(keys, acc, seen)
    requires keys' == if a in acc then keys else keys + [a]
    requires acc' == if a in acc then acc[a := acc[a] + 1] else acc[a := 1]
    ensures Counted(keys', acc', seen + [a])
  {
    assert a in acc <==> a in seen;
    DistinctSnoc(seen, a);
    assert forall b :: b in acc' <==> b in keys';
    forall b | b in acc' ensures acc'[b] == Occurrences(seen + [a], b) {
      OccurrencesSnoc(seen, a, b);
      if b != a {
        assert acc'[b] == acc[b];
      }
    }
  }

  // ---------------------------------------------------------------------------
  // What the two axes promise.
  // ---------------------------------------------------------------------------

  lemma {:induction false} AtCameraLength(uploads: seq<Upload>, camera: Label)
    ensures |AtCamera(uploads, camera)| == Occurrences(CameraIds(uploads), camera)
  {
    if uploads != [] {
      AtCameraLength(uploads[..|uploads| - 1], camera);
    }
  }

  lemma CameraIdsAppend(w: seq<Upload>, u: Upload)
    ensures CameraIds(w + [u]) == CameraIds(w) + [u.cameraId]
  {
    assert (w + [u])[..|w + [u]| - 1] == w;
  }

  lemma AnimalsAppend(w: seq<Upload>, u: Upload)
    ensures Animals(w + [u]) == Animals(w) + [u.animal]
  {
    assert (w + [u])[..|w + [u]| - 1] == w;
  }

  /** Filtering by animal and counting a camera gives the reference count. */
  lemma {:induction false} CameraCountIsSightings(uploads: seq<Upload>, animal: Label, camera: Label)
    ensures Occurrences(CameraIds(WithAnimal(uploads, animal)), camera) == Sightings(uploads, animal, camera)
  {
    if uploads != [] {
      var p, u := uploads[..|uploads| - 1], uploads[|uploads| - 1];
      CameraCountIsSightings(p, animal, camera);
      var w := WithAnimal(p, animal);
      if u.animal == animal {
        assert WithAnimal(uploads, animal) == w + [u];
        CameraIdsAppend(w, u);
        OccurrencesSnoc(CameraIds(w), u.cameraId, camera);
      } else {
        assert WithAnimal(uploads, animal) == w;
      }
    }
  }

  /** Filtering by camera and counting an animal gives the same reference count. */
  lemma {:induction false} AnimalCountIsSightings(uploads: seq<Upload>, animal: Label, camera: Label)
    ensures Occurrences(Animals(AtCamera(uploads, camera)), animal) == Sightings(uploads, animal, camera)
  {
    if uploads != [] {
      var p, u := uploads[..|uploads| - 1], uploads[|uploads| - 1];
      AnimalCountIsSightings(p, animal, camera);
      var w := AtCamera(p, camera);
      if u.cameraId == camera {
        assert AtCamera(uploads, camera) == w + [u];
        AnimalsAppend(w, u);
        OccurrencesSnoc(Animals(w), u.animal, animal);
      } else {
        assert AtCamera(uploads, camera) == w;
      }
    }
  }

  /**
   * "animal" axis labels: exactly the distinct pin camera ids, in first-seen
   * order, one group per distinct id however many uploads there are.
   */
  lemma AnimalAxisLabels(uploads: seq<Upload>, pins: seq<Pin>, animal: Label)
    ensures var groups := AnimalAxis(uploads, pins, animal);
      && NoDuplicates(Labels(groups))
      && (forall c :: c in Labels(groups) <==> c in PinCameraIds(pins))
      && FirstSeenOrder(Labels(groups), PinCameraIds(pins))
      && |groups| == |ToSet(PinCameraIds(pins))|
  {
    DistinctOrder(PinCameraIds(pins));
    DistinctLength(PinCameraIds(pins));
  }

  /**
   * "animal" axis counts: each pinned camera counts the uploads of the animal
   * from that camera, zero when there are none.
   */
  lemma AnimalAxisCounts(uploads: seq<Upload>, pins: seq<Pin>, animal: Label)
    ensures var groups := AnimalAxis(uploads, pins, animal);
      forall i :: 0 <= i < |groups| ==> groups[i].count == Sightings(uploads, animal, groups[i].key)
  {
    var groups := AnimalAxis(uploads, pins, animal);
    forall i | 0 <= i < |groups|
      ensures groups[i].count == Sightings(uploads, animal, groups[i].key)
    {
      CameraCountIsSightings(uploads, animal, groups[i].key);
    }
  }

  /**
   * "animal" axis total: the counts add up to the uploads of the animal whose
   * camera is pinned; uploads from unpinned cameras are in no group.
   */
  lemma AnimalAxisTotal(uploads: seq<Upload>, pins: seq<Pin>, animal: Label)
    ensures TotalCount(AnimalAxis(uploads, pins, animal))
      == CountIn(CameraIds(WithAnimal(uploads, animal)), PinCameraIds(pins))
  {
    var cams := Distinct(PinCameraIds(pins));
    TallyTotal(cams, CameraIds(WithAnimal(uploads, animal)));
    CountInSameMembers(CameraIds(WithAnimal(uploads, animal)), cams, PinCameraIds(pins));
  }

  lemma {:induction false} CountInSameMembers(s: seq<Label>, a: seq<Label>, b: seq<Label>)
    requires forall x :: x in a <==> x in b
    ensures CountIn(s, a) == CountIn(s, b)
  {
    if s != [] {
      CountInSameMembers(s[..|s| - 1], a, b);
    }
  }

  /** An upload from a camera without a pin leaves the "animal" axis unchanged. */
  lemma {:induction false} UnpinnedUploadIgnored(uploads: seq<Upload>, pins: seq<Pin>, animal: Label, u: Upload)
    requires u.cameraId !in PinCameraIds(pins)
    ensures AnimalAxis(uploads + [u], pins, animal) == AnimalAxis(uploads, pins, animal)
  {
    var cams := Distinct(PinCameraIds(pins));
    var w := WithAnimal(uploads, animal);
    assert (uploads + [u])[..|uploads + [u]| - 1] == uploads;
    if u.animal == animal {
      assert WithAnimal(uploads + [u], animal) == w + [u];
      CameraIdsAppend(w, u);
      forall c | c in cams ensures Occurrences(CameraIds(w + [u]), c) == Occurrences(CameraIds(w), c) {
        OccurrencesSnoc(CameraIds(w), u.cameraId, c);
      }
    } else {
      assert WithAnimal(uploads + [u], animal) == w;
    }
  }

  /**
   * "camera" axis: the labels are distinct and exactly the animals seen by the
   * camera; each count is at least one and is the number of that animal's
   * uploads from the camera; the counts add up to the camera's uploads.
   */
  lemma CameraAxisGroups(uploads: seq<Upload>, camera: Label)
    ensures var groups := CameraAxis(uploads, camera);
      && NoDuplicates(Labels(groups))
      && (forall a :: a in Labels(groups) <==> exists u :: u in uploads && u.cameraId == camera && u.animal == a)
      && FirstSeenOrder(Labels(groups), Animals(AtCamera(uploads, camera)))
      && (forall i :: 0 <= i < |groups| ==> 1 <= groups[i].count == Sightings(uploads, groups[i].key, camera))
      && TotalCount(groups) == |AtCamera(uploads, camera)|
  {
    AnimalsMembers(AtCamera(uploads, camera));
    DistinctOrder(Animals(AtCamera(uploads, camera)));
    CameraAxisCounts(uploads, camera);
    CameraAxisTotal(uploads, camera);
  }

  lemma CameraAxisCounts(uploads: seq<Upload>, camera: Label)
    ensures var groups := CameraAxis(uploads, camera);
      forall i :: 0 <= i < |groups| ==> 1 <= groups[i].count == Sightings(uploads, groups[i].key, camera)
  {
    var groups := CameraAxis(uploads, camera);
    forall i | 0 <= i < |groups|
      ensures 1 <= groups[i].count == Sightings(uploads, groups[i].key, camera)
    {
      AnimalCountIsSightings(uploads, groups[i].key, camera);
    }
  }

  lemma CameraAxisTotal(uploads: seq<Upload>, camera: Label)
    ensures TotalCount(CameraAxis(uploads, camera)) == |AtCamera(uploads, camera)|
  {
    var seen := Animals(AtCamera(uploads, camera));
    TallyTotal(Distinct(seen), seen);
    CountInAll(seen, Distinct(seen));
  }

  /** Filtering a prefix of the uploads gives a prefix of the filtered uploads: the filter keeps input order. */
  lemma {:induction false} AtCameraPrefix(uploads: seq<Upload>, camera: Label, k: nat)
    requires k <= |uploads|
    ensures AtCamera(uploads[..k], camera) <= AtCamera(uploads, camera)
    decreases |uploads| - k
  {
    if k < |uploads| {
      var p := uploads[..|uploads| - 1];
      assert p[..k] == uploads[..k];
      AtCameraPrefix(p, camera, k);
    } else {
      assert uploads[..k] == uploads;
    }
  }

  /** Upload `k` of the camera sits in the filtered list right after the filtered uploads before it. */
  lemma FilteredPosition(uploads: seq<Upload>, camera: Label, k: nat)
    requires k < |uploads| && uploads[k].cameraId == camera
    ensures var before := AtCamera(uploads[..k], camera);
      && |before| < |AtCamera(uploads, camera)|
      && AtCamera(uploads, camera)[|before|] == uploads[k]
      && AtCamera(uploads, camera)[..|before|] == before
  {
    assert uploads[..k + 1][..k] == uploads[..k];
    assert AtCamera(uploads[..k + 1], camera) == AtCamera(uploads[..k], camera) + [uploads[k]];
    AtCameraPrefix(uploads, camera, k + 1);
  }

  /** A label earlier on the "camera" axis is among the animals the camera saw before upload `k`. */
  lemma EarlierLabelBefore(uploads: seq<Upload>, camera: Label, i: nat, j: nat, k: nat)
    requires i < j < |CameraAxis(uploads, camera)| && k < |uploads|
    requires uploads[k].cameraId == camera && uploads[k].animal == CameraAxis(uploads, camera)[j].key
    ensures CameraAxis(uploads, camera)[i].key in Animals(AtCamera(uploads[..k], camera))
  {
    var groups := CameraAxis(uploads, camera);
    var filtered := AtCamera(uploads, camera);
    var seen := Animals(filtered);
    var n := |AtCamera(uploads[..k], camera)|;
    FilteredPosition(uploads, camera, k);
    assert Labels(groups)[i] == groups[i].key && Labels(groups)[j] == groups[j].key;
    DistinctOrderAt(seen, i, j, n);
    AnimalsPrefix(filtered, n);
  }

  /** The first-seen order of `Distinct`, at one pair of labels and one position. */
  lemma DistinctOrderAt(seen: seq<Label>, i: nat, j: nat, n: nat)
    requires i < j < |Distinct(seen)| && n < |seen| && seen[n] == Distinct(seen)[j]
    ensures Distinct(seen)[i] in seen[..n]
  {
    DistinctOrder(seen);
  }

  /** The animals of a prefix are the prefix of the animals. */
  lemma AnimalsPrefix(uploads: seq<Upload>, n: nat)
    requires n <= |uploads|
    ensures Animals(uploads)[..n] == Animals(uploads[..n])
  {
  }

  /** An animal seen in the camera's uploads before position `k` occurs at some upload of the camera before `k`. */
  lemma SeenBefore(uploads: seq<Upload>, camera: Label, a: Label, k: nat)
    requires k <= |uploads| && a in Animals(AtCamera(uploads[..k], camera))
    ensures exists m :: 0 <= m < k && uploads[m].cameraId == camera && uploads[m].animal == a
  {
    var before := AtCamera(uploads[..k], camera);
    AnimalsMembers(before);
    var u :| u in before && u.animal == a;
    var m :| 0 <= m < k && uploads[..k][m] == u;
    assert uploads[m] == u;
  }

  /** One instance of `CameraAxisOrder`: the earlier label was seen by the camera before upload `k`. */
  lemma EarlierLabelSeenEarlier(uploads: seq<Upload>, camera: Label, i: nat, j: nat, k: nat)
    requires i < j < |CameraAxis(uploads, camera)| && k < |uploads|
    requires uploads[k].cameraId == camera && uploads[k].animal == CameraAxis(uploads, camera)[j].key
    ensures exists m :: 0 <= m < k && uploads[m].cameraId == camera
                        && uploads[m].animal == CameraAxis(uploads, camera)[i].key
  {
    EarlierLabelBefore(uploads, camera, i, j, k);
    SeenBefore(uploads, camera, CameraAxis(uploads, camera)[i].key, k);
  }

  /**
   * "camera" axis order in terms of the uploads themselves: when a later label
   * occurs at upload `k` of the camera, every earlier label already occurred in
   * an upload of the camera before `k` (insertion order of the accumulator keys).
   */
  lemma CameraAxisOrder(uploads: seq<Upload>, camera: Label)
    ensures var groups := CameraAxis(uploads, camera);
      forall i, j, k ::
        0 <= i < j < |groups| && 0 <= k < |uploads| && uploads[k].cameraId == camera && uploads[k].animal == groups[j].key
        ==> exists m :: 0 <= m < k && uploads[m].cameraId == camera && uploads[m].animal == groups[i].key
  {
    var groups := CameraAxis(uploads, camera);
    forall i, j, k | 0 <= i < j < |groups| && 0 <= k < |uploads| && uploads[k].cameraId == camera
                     && uploads[k].animal == groups[j].key
      ensures exists m :: 0 <= m < k && uploads[m].cameraId == camera && uploads[m].animal == groups[i].key
    {
      EarlierLabelSeenEarlier(uploads, camera, i, j, k);
    }
  }

  lemma {:induction false} AnimalsMembers(uploads: seq<Upload>)
    ensures forall a :: a in Animals(uploads) <==> exists u :: u in uploads && u.animal == a
  {
    if uploads != [] {
      var p := uploads[..|uploads| - 1];
      AnimalsMembers(p);
      assert uploads == p + [uploads[|uploads| - 1]];
    }
  }
}
