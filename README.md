# Trail Tracker upload summary, modelled in Dafny

Trail Tracker is the backend of a trail-camera app. Users save GPS pins for their cameras and log uploads: one record per capture, with the camera id and the animal detected. The backend's one piece of real logic is the upload-summary query (`POST /api/users/get_uploads`). It takes a user's uploads and pins, a `sort_by` axis and a `filter_value`, and returns:

- grouped data: a list of `{label, count}` records;
- at most one recommendation sentence, naming the first group with the largest count.

This project models that query in Dafny. It also models the in-memory part of `update_pin`, which edits one pin in place.

- `records.dfy` (module `Records`) holds the records. `Upload` and `Pin` are the list entries. `Group` is one `{label, count}`; its label field is called `key` because `label` is a Dafny keyword. `Result` and `Option` are the usual wrappers.
- `counting.dfy` (module `Counting`) holds:
  - `Distinct`, which keeps each label at its first occurrence. That is what `[...new Set(xs)]` gives, since a JavaScript `Set` keeps insertion order.
  - occurrence counts, and `Tally`, which builds one group per label;
  - the lemmas that the counts of a tally add up as expected.
- `aggregator.dfy` (module `Aggregator`) holds the two branches of the handler. `AnimalAxis` and `CameraAxis` are pure definitions of the grouped data. `GroupCamerasForAnimal` and `GroupAnimalsAtCamera` are methods that fill the accumulator maps (`acc[camera_id] = count`, `acc[upload.animal]++`) in loops, as the handler's `reduce` calls do. Each method is proved equal to its definition.
  - On the "animal" axis the groups come from the pins: every distinct pin camera id appears, even with count 0.
  - On the "camera" axis the groups come from the uploads: only animals the camera actually saw appear.
- `recommender.dfy` (module `Recommender`) models `generateRecommendations` as a function: the maximum count, the first group that reaches it, and the sentence for the axis.
- `summary.dfy` (module `Summary`) puts the two together. `UploadSummary` is a function and `GetUploadSummary` is the method that runs the steps. The module also proves the sample scenarios, for example that the "deer" query on two pinned cameras gives `[cam1: 2, cam2: 0]` and recommends `cam1`.
- `pins.dfy` (module `PinEdit`) holds `FindPinIndex` (`findIndex`) and `UpdatePin`. `UpdatePin` overwrites the first matching element of an `array<Pin>` and is proved against the reference function `UpdatedPins`.

Three behaviours of the code are worth noting. The model keeps each of them:

- The handler gives one error response ("Invalid sort option or filter value") both for an unknown `sort_by` and for a missing `filter_value`. So `Summary.Error` has one constructor, not separate "invalid axis" and "invalid filter" kinds.
- On the "animal" axis, uploads from cameras without a pin are counted nowhere. The counts therefore add up to the uploads of that animal *from pinned cameras*, not to all uploads of that animal (`Aggregator.AnimalAxisTotal`).
- `generateRecommendations` with a `filter_type` other than `animal` or `camera` returns no sentence, even for non-empty data. The model keeps this case, although the handler never reaches it.

## Model

| member | source | states |
|---|---|---|
| Counting.Distinct | server.js:284 | the result has no duplicates and contains exactly the values of the input (`new Set`) |
| Counting.DistinctOrder | server.js:284 | the de-duplicated list is in first-seen order: every occurrence of a later label comes after an occurrence of each earlier label |
| Counting.DistinctLength | server.js:284 | there is one entry per distinct input value |
| Counting.Occurrences | server.js:287 | a count is at most the list length, and it is positive exactly when the value occurs |
| Counting.Tally | server.js:291-294 | the groups carry exactly the given labels, in the given order |
| Counting.TallyTotal | server.js:304-314 | over distinct labels, the counts of a tally add up to the number of values that are one of those labels |
| Aggregator.WithAnimal | server.js:285 | an upload is in the result exactly when it is in the input and its animal equals the filter (membership only; repeats are stated by `WithAnimalKeepsRepeats`) |
| Aggregator.WithAnimalKeepsRepeats | server.js:285 | the animal filter keeps each matching upload as many times as it occurs in the input, and drops every other upload |
| Aggregator.AtCamera | server.js:303 | an upload is in the result exactly when it is in the input and its camera id equals the filter (membership only; repeats are stated by `AtCameraKeepsRepeats`) |
| Aggregator.AtCameraKeepsRepeats | server.js:303 | the camera filter keeps each matching upload as many times as it occurs in the input, and drops every other upload |
| Aggregator.AtCameraPrefix | server.js:303 | filtering a prefix of the uploads gives a prefix of the filtered list. Together with `AtCameraKeepsRepeats`, this fixes the camera filter's output exactly: the matching uploads, in input order, with repeats |
| Aggregator.AnimalAxis | server.js:283-294 | definition of the "animal" axis groups; its own contract only says the labels are the distinct pin camera ids. `AnimalAxisLabels`, `AnimalAxisCounts` and `AnimalAxisTotal` characterize it |
| Aggregator.CameraAxis | server.js:302-314 | definition of the "camera" axis groups; its own contract only says the labels are distinct and are the animals the camera saw. `CameraAxisGroups` characterizes it |
| Aggregator.CollectCameras | server.js:284 | the loop that fills the set yields the distinct pin camera ids in first-seen order |
| Aggregator.GroupCamerasForAnimal | server.js:283-294 | the "animal" branch's accumulator loop yields exactly the "animal" axis groups |
| Aggregator.GroupAnimalsAtCamera | server.js:302-314 | the "camera" branch's create-at-0-then-increment loop yields exactly the "camera" axis groups, in key-insertion order |
| Aggregator.CameraCountIsSightings | server.js:285-288 | filtering by animal and then counting a camera gives the number of uploads with that animal at that camera |
| Aggregator.AnimalCountIsSightings | server.js:303-308 | filtering by camera and then counting an animal gives that same number |
| Aggregator.AnimalAxisLabels | server.js:284-294 | "animal" axis labels are distinct, are exactly the pin camera ids, are in first-seen order, and number the distinct pin camera ids, whatever the uploads |
| Aggregator.AnimalAxisCounts | server.js:285-293 | each "animal" axis count is the number of uploads with that animal at that camera; a camera with none gets 0 |
| Aggregator.AnimalAxisTotal | server.js:285-293 | the "animal" axis counts add up to the uploads of the animal whose camera is pinned |
| Aggregator.UnpinnedUploadIgnored | server.js:284-288 | adding an upload from an unpinned camera leaves the "animal" axis result unchanged |
| Aggregator.CameraAxisGroups | server.js:303-314 | "camera" axis labels are distinct, are exactly the animals that camera saw, and are in first-seen order (`Object.keys` insertion order); each count is at least 1 and equals that animal's uploads at the camera; the counts add up to the camera's uploads |
| Aggregator.CameraAxisOrder | server.js:303-314 | "camera" axis labels come in the order the camera first saw them. If a later label occurs at upload `k` of the camera, every earlier label occurs at an upload of that camera before `k`. This order decides the tie-break at server.js:331 |
| Recommender.MaxCount | server.js:330 | the result is one of the counts and is at least every count |
| Recommender.FindCount | server.js:331 | gives the first index with the count, or none exactly when no group has it |
| Recommender.Sentence | server.js:332-336 | the two sentence templates; its own contract only says a sentence exists exactly for `animal` and `camera` and begins with the selection. `NamedLabelOfSentence` characterizes it |
| Recommender.GenerateRecommendations | server.js:327-339 | at most one sentence; exactly one when the data is non-empty and the type is `animal` or `camera`; that sentence names a group whose count is maximal with no earlier group reaching it, in the sentence of the axis |
| Recommender.FirstBestUnique | server.js:330-331 | only one group is first with the maximal count, so the choice is determined |
| Recommender.RecommendsFirstBest | server.js:330-336 | the recommendation list is exactly the axis sentence for the first group whose count is maximal |
| Recommender.AllZeroRecommendsFirst | server.js:329-336 | when every count is 0, the first group is recommended |
| Recommender.NamedLabelOfSentence | server.js:332-336 | the recommended label can be read back from the sentence, so different winners give different sentences |
| Summary.UploadSummary | server.js:283-324 | error exactly when `sort_by` is not `animal`/`camera` or `filter_value` is empty; on success, a recommendation exactly when there are groups |
| Summary.GetUploadSummary | server.js:280-324 | the handler's steps compute `UploadSummary` |
| Summary.SummaryRecommendsBest | server.js:296-321 | for a valid axis and filter the query succeeds; the groups are those of the chosen axis, and the recommendation names the first maximal group in that axis's sentence |
| Summary.SampleDeerSummary | server.js:283-301 | the "deer" query on cam1 (two deer) and cam2 (a fox) gives `[cam1: 2, cam2: 0]` and one recommendation, the best-camera sentence naming cam1 |
| Summary.SampleCameraSummary | server.js:302-321 | the "cam1" query on the same uploads gives `[deer: 2]` and one recommendation, the most-frequent-animal sentence naming deer |
| Summary.UnknownSortRejected | server.js:322-324 | an unknown `sort_by` is rejected whatever the snapshot |
| Summary.NoPinsNoGroups | server.js:283-301 | a user without pins gets no groups and no recommendation on the "animal" axis |
| PinEdit.FindPinIndex | server.js:139 | returns -1 exactly when no pin has the camera id, and otherwise the first pin that does |
| PinEdit.UpdatePin | server.js:139-149 | reports found exactly when some pin has the camera id; the new pin list is `UpdatedPins` of the old one |
| PinEdit.Edited | server.js:141-144 | the edited pin carries exactly the new name, camera id, latitude and longitude |
| PinEdit.UpdatedPins | server.js:139-144 | reference definition of the edited list; its own contract only says the length is kept and pins that do not match are unchanged. `UpdatedPinsFirstMatch` and `UpdatedPinsNoMatch` characterize it |
| PinEdit.UpdatedPinsFirstMatch | server.js:139-144 | only the first matching pin changes, and it takes the new name, camera id, latitude and longitude |
| PinEdit.UpdatedPinsNoMatch | server.js:147-148 | without a matching pin the list is unchanged |

## Left out

- HTTP routing, status codes other than the error/success split, response JSON and `console.log` are left out. They are transport.
- The user lookup (`User.findOne`) and its "User not found" response are left out. The model starts from the user's uploads and pins, passed in as plain sequences.
- Saving the edited pin (`user.save()`) is left out. So is the 500 response when `update_pin` runs for a missing user. Both are database behaviour.
- The other endpoints are left out: register, login, change_password, log-scan, save_location, save_pin, get_pins, delete_pin, profile, update_profile, delete_upload, get_uploads_by_camera and get_camera_ids. They only call the database, bcrypt or multer, with no logic of their own. `routes/user.js` and `database.js` are not part of this model.
- Latitude and longitude are modelled as `real`. They are only copied, never computed on, so floating-point behaviour does not matter.
- All request values are assumed to be strings. JavaScript would also accept non-string `filter_value`, `camera_id` or `animal` values (numbers, `null`, missing fields), with its own equality and key-conversion rules. Only "empty string means no filter" is modelled, for the truthiness test.
- Aggregator.WithAnimal: its contract and `WithAnimalKeepsRepeats` state which uploads are kept and how often, not that they stay in input order. On the "animal" axis nothing depends on that order, because the group order comes from the pins. The camera filter's order is stated, by `AtCameraPrefix`.
- Aggregator.GroupAnimalsAtCamera: keys keep insertion order. This assumes no animal label is a canonical integer string such as `"12"`, because `Object.keys` lists such keys first, in numeric order.
- Aggregator.GroupCamerasForAnimal: the accumulator object is modelled as a plain map. This assumes no pin camera id is `__proto__`. The branch assigns `acc[camera_id] = count`, which creates an own property and so hides every other inherited name. An assignment to `__proto__`, however, is ignored, and the later `groupedUploads['__proto__'] || 0` then yields `Object.prototype` rather than a count.
- Aggregator.GroupAnimalsAtCamera: the accumulator object is modelled as a plain map. This assumes no animal label is the name of an `Object.prototype` property (`__proto__`, `constructor`, `toString`, ...). For such a label, the test `!acc[a]` reads the inherited value, which is truthy, so no 0 is stored first, and `acc[a]++` stores `NaN`. For `__proto__` the label does not appear in `Object.keys` at all.
