/**
 * The upload-summary query: validate `sort_by` and `filter_value`, group the
 * user's uploads along the chosen axis, and recommend from the groups.
 */
module Summary {
  import opened Records
  import opened Counting
  import opened Aggregator
  import opened Recommender

  /** The one error the query reports: "Invalid sort option or filter value". */
  datatype Error = InvalidSortOrFilter

  /** The success payload: `uploads` (the grouped data) and `recommendations`. */
  datatype UploadsSummary = UploadsSummary(groups: seq<Group>, recommendations: seq<string>)

  /** A filter value is usable when it is truthy, that is, not the empty string. */
  predicate Truthy(filterValue: string) {
    filterValue != ""
  }

  /** The query's answer, as a function of the user's snapshot and the request. */
  function UploadSummary(uploads: seq<Upload>, pins: seq<Pin>, sortBy: string, filterValue: string)
    : (r: Result<UploadsSummary, Error>)
    ensures r.Failure? <==> !((sortBy == "animal" || sortBy == "camera") && Truthy(filterValue))
    ensures r.Success? ==> |r.value.recommendations| == (if r.value.groups == [] then 0 else 1)
  {
    if sortBy == "animal" && Truthy(filterValue) then
      var groups := AnimalAxis(uploads, pins, filterValue);
      Success(UploadsSummary(groups, GenerateRecommendations(groups, filterValue, "animal")))
    else if sortBy == "camera" && Truthy(filterValue) then
      var groups := CameraAxis(uploads, filterValue);
      Success(UploadsSummary(groups, GenerateRecommendations(groups, filterValue, "camera")))
    else
      Failure(InvalidSortOrFilter)
  }

  /** The handler's steps: pick the branch, run its accumulation, then recommend. */
  method GetUploadSummary(uploads: seq<Upload>, pins: seq<Pin>, sortBy: string, filterValue: string)
    returns (r: Result<UploadsSummary, Error>)
    ensures r == UploadSummary(uploads, pins, sortBy, filterValue)
  {
    if sortBy == "animal" && Truthy(filterValue) {
      var groups := GroupCamerasForAnimal(uploads, pins, filterValue);
      var recommendations := GenerateRecommendations(groups, filterValue, "animal");
      r := Success(UploadsSummary(groups, recommendations));
    } else if sortBy == "camera" && Truthy(filterValue) {
      var groups := GroupAnimalsAtCamera(uploads, filterValue);
      var recommendations := GenerateRecommendations(groups, filterValue, "camera");
      r := Success(UploadsSummary(groups, recommendations));
    } else {
      r := Failure(InvalidSortOrFilter);
    }
  }

  /**
   * On success the groups are those of the chosen axis and the one
   * recommendation, if any, names the first group with the largest count in
   * that axis's sentence.
   */
  lemma SummaryRecommendsBest(uploads: seq<Upload>, pins: seq<Pin>, sortBy: string, filterValue: string)
    requires (sortBy == "animal" || sortBy == "camera") && Truthy(filterValue)
    ensures UploadSummary(uploads, pins, sortBy, filterValue).Success?
    ensures var s := UploadSummary(uploads, pins, sortBy, filterValue).value;
      && s.groups == (if sortBy == "animal" then AnimalAxis(uploads, pins, filterValue)
                      else CameraAxis(uploads, filterValue))
      && (|s.recommendations| == 1 ==>
            exists k :: IsFirstBest(s.groups, k)
              && Sentence(sortBy, filterValue, s.groups[k].key) == Some(s.recommendations[0]))
  {
  }

  lemma AnimalSummary(uploads: seq<Upload>, pins: seq<Pin>, animal: string)
    requires Truthy(animal)
    ensures var groups := AnimalAxis(uploads, pins, animal);
      UploadSummary(uploads, pins, "animal", animal)
        == Success(UploadsSummary(groups, GenerateRecommendations(groups, animal, "animal")))
  {
  }

  lemma CameraSummary(uploads: seq<Upload>, pins: seq<Pin>, camera: string)
    requires Truthy(camera)
    ensures var groups := CameraAxis(uploads, camera);
      UploadSummary(uploads, pins, "camera", camera)
        == Success(UploadsSummary(groups, GenerateRecommendations(groups, camera, "camera")))
  {
    assert "camera" != "animal";
  }

  /** A user with two pinned cameras: cam1 took two pictures of deer, cam2 one of a fox. */
  const SamplePins := [Pin("north", "cam1", 0.0, 0.0), Pin("south", "cam2", 0.0, 0.0)]
  const SampleUploads := [Upload("a.jpg", "cam1", "deer", "", "", ""), Upload("b.jpg", "cam1", "deer", "", "", ""),
                          Upload("c.jpg", "cam2", "fox", "", "", "")]

  lemma SampleDeerSightings()
    ensures Sightings(SampleUploads, "deer", "cam1") == 2
    ensures Sightings(SampleUploads, "deer", "cam2") == 0
  {
    assert "cam1" != "cam2" by { assert "cam1"[3] != "cam2"[3]; }
    assert "fox" != "deer" by { assert |"fox"| != |"deer"|; }
    var u := SampleUploads;
    assert u[..1][..0] == [];
    assert u[..2][..1] == u[..1];
    assert u[..3][..2] == u[..2];
    assert u[..3] == u;
    assert Sightings(u[..1], "deer", "cam1") == 1 && Sightings(u[..1], "deer", "cam2") == 0;
    assert Sightings(u[..2], "deer", "cam1") == 2 && Sightings(u[..2], "deer", "cam2") == 0;
  }

  lemma SampleDeerGroups()
    ensures AnimalAxis(SampleUploads, SamplePins, "deer") == [Group("cam1", 2), Group("cam2", 0)]
  {
    var cams := PinCameraIds(SamplePins);
    assert cams == ["cam1", "cam2"];
    DistinctOfDistinct(cams);
    var groups := AnimalAxis(SampleUploads, SamplePins, "deer");
    assert Labels(groups) == cams;
    AnimalAxisCounts(SampleUploads, SamplePins, "deer");
    SampleDeerSightings();
    assert groups[0] == Group("cam1", 2);
    assert groups[1] == Group("cam2", 0);
  }

  /** The "deer" query recommends cam1, where both deer were seen; cam2 is listed with zero. */
  lemma SampleDeerSummary()
    ensures UploadSummary(SampleUploads, SamplePins, "animal", "deer")
      == Success(UploadsSummary([Group("cam1", 2), Group("cam2", 0)],
                                [Sentence("animal", "deer", "cam1").value]))
  {
    SampleDeerGroups();
    AnimalSummary(SampleUploads, SamplePins, "deer");
    RecommendsFirstBest([Group("cam1", 2), Group("cam2", 0)], "deer", "animal", 0);
  }

  lemma SampleCameraUploads()
    ensures AtCamera(SampleUploads, "cam1") == SampleUploads[..2]
  {
    assert "cam1" != "cam2" by { assert "cam1"[3] != "cam2"[3]; }
    var u := SampleUploads;
    assert u[..1][..0] == [];
    assert u[..2][..1] == u[..1];
    assert u[..3][..2] == u[..2];
    assert u[..3] == u;
    assert AtCamera(u[..1], "cam1") == [u[0]];
    assert AtCamera(u[..2], "cam1") == [u[0], u[1]];
  }

  lemma SampleCameraAnimals()
    ensures Animals(SampleUploads[..2]) == ["deer", "deer"]
  {
    var atCam := SampleUploads[..2];
    assert atCam[..1] == [atCam[0]] && atCam[..1][..0] == [];
    assert Animals(atCam[..1]) == ["deer"];
  }

  lemma TallyOne(x: Label, values: seq<Label>)
    ensures Tally([x], values) == [Group(x, Occurrences(values, x))]
  {
    var t := Tally([x], values);
    assert |t| == 1 && t[0] == Group(x, Occurrences(values, x));
  }

  lemma DistinctTwice(x: Label)
    ensures Distinct([x, x]) == [x]
  {
    assert [x, x] == [x] + [x] && [x] == [] + [x];
    DistinctSnoc([], x);
    DistinctSnoc([x], x);
  }

  lemma OccurrencesTwice(x: Label)
    ensures Occurrences([x, x], x) == 2
  {
    assert [x, x] == [x] + [x] && [x] == [] + [x];
    OccurrencesSnoc([], x, x);
    OccurrencesSnoc([x], x, x);
  }

  lemma TallyTwice(x: Label)
    ensures Tally(Distinct([x, x]), [x, x]) == [Group(x, 2)]
  {
    DistinctTwice(x);
    OccurrencesTwice(x);
    TallyOne(x, [x, x]);
  }

  lemma SampleCameraGroups()
    ensures CameraAxis(SampleUploads, "cam1") == [Group("deer", 2)]
  {
    SampleCameraUploads();
    SampleCameraAnimals();
    TallyTwice("deer");
  }

  /** The "cam1" query lists only deer, the one animal cam1 saw, twice. */
  lemma SampleCameraSummary()
    ensures UploadSummary(SampleUploads, SamplePins, "camera", "cam1")
      == Success(UploadsSummary([Group("deer", 2)],
                                [Sentence("camera", "cam1", "deer").value]))
  {
    SampleCameraGroups();
    CameraSummary(SampleUploads, SamplePins, "cam1");
    RecommendsFirstBest([Group("deer", 2)], "cam1", "camera", 0);
  }

  /** An unknown sort option is rejected, whatever the snapshot. */
  lemma UnknownSortRejected(uploads: seq<Upload>, pins: seq<Pin>, filterValue: string)
    ensures UploadSummary(uploads, pins, "unknown", filterValue) == Failure(InvalidSortOrFilter)
  {
  }

  /** A user without pins gets no groups and no recommendation on the "animal" axis. */
  lemma NoPinsNoGroups(uploads: seq<Upload>, animal: string)
    requires Truthy(animal)
    ensures UploadSummary(uploads, [], "animal", animal) == Success(UploadsSummary([], []))
  {
    assert PinCameraIds([]) == [];
  }
}
