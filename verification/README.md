# Exercise tracker: a verified model of its per-frame logic

This project models, in Dafny, the decision logic of a webcam fitness
trainer. The trainer is made of five pieces:

- The **main engine** (`app/main_engine.py`) is a worker that takes
  time-stamped camera frames off its input queue, one at a time. For each frame it:
  - featurises and classifies the frame;
  - smooths the pose label with a majority vote over the last three labels;
  - counts poses and completed sets;
  - runs a light check at most once every 2 seconds of frame time;
  - turns every failure into an `error` event that is also handed to the
    speech worker.
- The **frame processor** (`app/utils/frame_processor.py`) does three things:
  - re-centres the detected joints on the mid-hip point;
  - checks four visibility gates;
  - builds the 32-entry feature vector (24 distances over the torso length,
    4 angles over 360, 4 visibility blends).

  It also holds the form-correction rule table and the light check.
- The **pose classifier** (`app/utils/pose_classifier.py`) trusts the
  second-stage label only when it agrees with the first-stage exercise.
  Otherwise it answers `random-random`.
- The **speech worker** (`app/utils/speech_engine.py`) synthesises each text
  once and replays it afterwards. As long as no request is handled
  before it is made, it never plays a text again within 10 seconds of its
  last delivery.
- The **web page** (`app/app.py`) does three things:
  - hands the engine at most one frame every 200 ms;
  - reads at most one event from the engine per pass of its camera loop, and
    saves the last one it read;
  - shows a final report of completed sets and exercise intensity from that
    saved event.

The modules follow the program's structure.

| file | module | models |
|---|---|---|
| `labels.dfy` | `Labels` | pose labels and the Python string operations applied to them |
| `dicts.dfy` | `Dicts` | insertion-ordered dictionaries of counts |
| `smoothing.dfy` | `Smoothing` | the three-label window and `Counter.most_common` |
| `geometry.dfy` | `Geometry` | `Point` arithmetic, `_get_distance`, `_get_angle` |
| `frame_processor.dfy` | `FrameProcessing` | the `FrameProcessor` class and the pure rules it applies |
| `classifier.dfy` | `PoseClassification` | `classify` |
| `speech.dfy` | `Speech` | the `SpeechEngine` class and its debounce cache |
| `engine.dfy` | `Engine` | the `MainEngine` class and its loop |
| `report.dfy` | `Report` | the final report, and the camera loop's throttle and polling |
| `wrappers.dfy` | `Wrappers` | `Option` and `Result` |

Each worker loop is two things in the model:
- a method over a class whose fields are the object's fields
  (`Engine.MainEngine`, `Speech.SpeechEngine`, `FrameProcessing.FrameProcessor`);
- a function over a state value.

The method is proved equal to the function, and the properties are proved
about the function.

Some facts about the code are worth knowing up front:

- As written, the following checks of `pose_corrector` can never fire:
  - the jumping-jacks arm check;
  - both planks straightness checks;
  - the crunches-start "relaxed" check;
  - the lunges "core straight" check.

  The first three ask for an angle below one bound and above a larger one.
  For the last two, the core is the midpoint of neck and mid-hips, so the
  angle they measure is a straight angle. The model keeps these checks as
  written and proves that they never fire.
- **Vote ties.** A tie in the vote goes to the label whose first
  occurrence in the window is earliest, because `Counter` keeps insertion
  order. So with three distinct labels the oldest one wins.
- **Feature vector size.** The vector has 32 entries: 24 distances, 4 angles
  and 4 visibility blends.
- **Zero torso length.** A zero torso length is not rejected. The distance
  features then become non-finite, which is `None` here.
- **Failed synthesis.** A failed synthesis leaves no history entry, so the
  next request for that text tries again at once, whatever its time.
- **The page runs its camera loop only on a later pass.** `app/app.py:83`
  calls `main()` only when the session already holds a saved output. On a
  fresh session the camera loop modelled by `Report.Pace` never starts.
- **Smoothing delays a change of label.** With the labels start, start, end,
  end, end, random, the window votes the sixth label to `end`. Jumping jacks
  then get six pose counts and random gets none.

## Model

| member | source | states |
|---|---|---|
| Labels.StartsWith | app/utils/pose_classifier.py:27 | definition: `str.startswith`, also used at app/utils/frame_processor.py:174-247; properties in Labels.Exercise, PoseClassification.Agree and PoseClassification.ClassifiedLabelAgrees |
| Labels.EndsWith | app/main_engine.py:62 | definition: `str.endswith`, also used at line 68; properties in Engine.EndCountsIffStarted and Engine.PlanksAddFifth |
| Labels.Exercise | app/main_engine.py:58 | `split('-')[0]` is a prefix of the label with no '-' in it, and it is followed by '-' whenever it is shorter than the label |
| Labels.ExerciseOfPrefix | app/main_engine.py:58 | a label `name + "-" + ...` whose name has no '-' has exactly that name as its exercise |
| Labels.Replace | app/main_engine.py:64 | definition: Python's `str.replace` of every non-overlapping occurrence, left to right; properties in Labels.ReplaceAbsent and Labels.EndPairsWithStart |
| Labels.ReplaceAbsent | app/main_engine.py:64 | `replace` leaves a string in which the pattern never occurs unchanged |
| Labels.EndPairsWithStart | app/main_engine.py:64 | for an exercise name not containing "end", `(ex + "-end").replace('end', 'start')` is `ex + "-start"` |
| Labels.TrainedExercisesHaveNoEnd | app/main_engine.py:64 | none of jumping_jacks, crunches, lunges, squats contains "end", so the end-to-start pairing is exact for each of them |
| Dicts.Get | app/main_engine.py:59 | definition: `d.get(k, default)`; properties in Dicts.PutGet |
| Dicts.Put | app/main_engine.py:59 | definition: `d[k] = v` on an insertion-ordered dictionary; properties in Dicts.PutGet, Dicts.PutKeys and Dicts.PutKeyed |
| Dicts.Total | app/app.py:28-29 | definition: the sum of all counts; properties in Dicts.TotalSplit and Dicts.IncrementTotal |
| Dicts.TotalExcept | app/app.py:29 | definition: the sum of the counts of all keys but one; properties in Dicts.TotalSplit |
| Dicts.PutGet | app/main_engine.py:59 | after `d[k] = v`, `k` maps to `v` and every other key maps to what it did before |
| Dicts.PutKeys | app/main_engine.py:65 | `d[k] = v` keeps the key order, and appends `k` only when it is new |
| Dicts.PutKeyed | app/main_engine.py:59 | `d[k] = v` never makes a key appear twice |
| Dicts.TotalSplit | app/app.py:28-29 | the count under one key plus the sum over all other keys is the sum of the whole dictionary |
| Dicts.IncrementTotal | app/main_engine.py:59 | `d[k] = d.get(k, 0) + 1` raises the sum of the counts by exactly one |
| Smoothing.LastN | app/main_engine.py:53 | `s[-n:]` has `min(n, len(s))` elements, and they are the last ones of `s` in order |
| Smoothing.Slide | app/main_engine.py:52-53 | the new window is non-empty, holds at most three labels and ends with the new label; it is the old window plus the label, minus its oldest entry when that was full |
| Smoothing.SlideAllKeepsNewest | app/main_engine.py:52-53 | after any run of labels, the window is the last (up to) three labels of everything seen, in arrival order |
| Smoothing.MostCommon | app/main_engine.py:54 | the vote is a label of the window with the greatest count; among labels with that count, it is the one whose first occurrence is earliest |
| Smoothing.MajorityWins | app/main_engine.py:54 | in a window of at most three, a label that occurs twice is the vote |
| Smoothing.NoMajorityOldestWins | app/main_engine.py:54 | with three distinct labels `[A, B, C]` the vote is `A` |
| Smoothing.MajorityExamples | app/main_engine.py:54 | `[A, A, B]` and `[B, A, A]` both vote `A` |
| Geometry.Add | app/utils/frame_processor.py:21-22 | definition: `Point.__add__`; properties in Geometry.VisibilityInUnit and Geometry.SubUndoesAdd |
| Geometry.Sub | app/utils/frame_processor.py:24-25 | definition: `Point.__sub__`; properties in Geometry.VisibilityInUnit and Geometry.SubUndoesAdd |
| Geometry.Scale | app/utils/frame_processor.py:27-30 | definition: `Point.__mul__` by a scalar; properties in Geometry.VisibilityInUnit |
| Geometry.Distance | app/utils/frame_processor.py:71-74 | definition: `_get_distance`; properties in Geometry.DistanceProperties and Geometry.TranslationInvariant |
| Geometry.VisibilityInUnit | app/utils/frame_processor.py:21-29 | `+` and `-` average visibility (staying in [0, 1]), and scalar `*` keeps it |
| Geometry.SubUndoesAdd | app/utils/frame_processor.py:21-25 | `(p + q) - q` is at `p`'s position, while its visibility is a blend weighted 1:3 |
| Geometry.DistanceProperties | app/utils/frame_processor.py:71-74 | distance is non-negative and symmetric, and zero exactly for points at the same position |
| Geometry.Angle | app/utils/frame_processor.py:76-84 | the angle is defined (not NaN) exactly when neither ray has length zero, and then lies in [0, 360) |
| Geometry.Fold | app/utils/frame_processor.py:178 | `min(a, 360 - a)` is `a` or `360 - a`, lies in [0, 180] for an angle in [0, 360], and NaN stays NaN |
| Geometry.CollinearAngle | app/utils/frame_processor.py:76-84 | for three collinear points the angle is exactly 0 (same side) or 180 (opposite sides) |
| Geometry.TranslationInvariant | app/utils/frame_processor.py:71-84 | moving all points by one offset changes neither a distance nor an angle |
| Geometry.MidpointAngle | app/utils/frame_processor.py:76-84 | the angle at the midpoint of two distinct points, between the rays back to them, is 180; for coincident points it is NaN |
| FrameProcessing.HipCentre | app/utils/frame_processor.py:62-63 | definition: the mid-hip point of the raw landmarks; properties in FrameProcessing.RecentredHipsCancel |
| FrameProcessing.Recentre | app/utils/frame_processor.py:67 | definition: one landmark moved to the mid-hips and scaled to pixels; properties in FrameProcessing.RecentredHipsCancel |
| FrameProcessing.Recentred | app/utils/frame_processor.py:56-69 | one re-centred point per name of `point_names`, fifteen in all |
| FrameProcessing.RecentredHipsCancel | app/utils/frame_processor.py:63-67 | re-centring keeps each joint's visibility, and the mid-hips recomputed from the re-centred hips is the origin |
| FrameProcessing.Gate | app/utils/frame_processor.py:98-101 | no message exactly when all four regions are seen (visibility > 0.4); otherwise the message of the first failing gate, in the order face, shoulders, body, feet |
| FrameProcessing.MakeSnapshot | app/utils/frame_processor.py:104-109 | the snapshot keeps the joints; its neck lies halfway between the shoulders and its mid-hips halfway between the hips; its torso length is the mean of the two neck-to-hip distances, so never negative; its core lies halfway between neck and mid-hips, and its ground point below the core on the frame's last row |
| FrameProcessing.SnapshotHipsAtOrigin | app/utils/frame_processor.py:63-67 | the snapshot built from re-centred joints has its mid-hips at the origin |
| FrameProcessing.DistanceFeature | app/utils/frame_processor.py:112-134 | definition: one distance feature, the distance between two joints over the torso length (`None` when that is zero); properties in FrameProcessing.FeatureRanges and FrameProcessing.FeaturesFinite |
| FrameProcessing.AngleFeature | app/utils/frame_processor.py:138-145 | definition: one angle feature, the angle at three joints over 360; properties in FrameProcessing.FeatureRanges and FrameProcessing.FeaturesFinite |
| FrameProcessing.VisibilityFeature | app/utils/frame_processor.py:147-153 | definition: one visibility feature, the mean visibility of two joints; properties in FrameProcessing.FeatureRanges |
| FrameProcessing.FeatureVector | app/utils/frame_processor.py:112-155 | the vector has 24 + 4 + 4 = 32 entries |
| FrameProcessing.FeatureRanges | app/utils/frame_processor.py:112-155 | distance features are never negative; angle features lie in [0, 1); once the gates pass, both shoulder-hip visibility blends exceed 0.4 |
| FrameProcessing.FeaturesFinite | app/utils/frame_processor.py:135-145 | every feature is finite exactly when the torso length is non-zero and no angle feature has a vertex on one of its ends |
| FrameProcessing.Observe | app/utils/frame_processor.py:88-101 | no landmarks gives no snapshot; a failed gate is an error, with one of the four gate messages; otherwise the snapshot holds the re-centred joints, which pass every gate |
| FrameProcessing.Join | app/utils/frame_processor.py:263 | the joined text starts with the first message and ends with the last; a single message is returned as is |
| FrameProcessing.JoinAppend | app/utils/frame_processor.py:263 | joining two non-empty runs of messages is joining each and putting exactly one space between them, so every message appears in order with single spaces between |
| FrameProcessing.Folded | app/utils/frame_processor.py:177-178 | a folded angle, when defined, lies in [0, 180] |
| FrameProcessing.Corrections | app/utils/frame_processor.py:163-263 | a pose draws at most three correction messages |
| FrameProcessing.JumpingJacksStart | app/utils/frame_processor.py:179-191 | definition: the three jumping-jacks start checks; properties in FrameProcessing.ArmsCheckNeverFires and FrameProcessing.JumpingJacksStartAtMostOne |
| FrameProcessing.JumpingJacksEnd | app/utils/frame_processor.py:193-200 | definition: the three jumping-jacks end checks; properties in FrameProcessing.CheckJumpingJacks and FrameProcessing.Corrections |
| FrameProcessing.JumpingJacks | app/utils/frame_processor.py:174-200 | definition: the jumping-jacks rules; properties in FrameProcessing.ArmsCheckNeverFires, FrameProcessing.JumpingJacksStartAtMostOne and FrameProcessing.CheckJumpingJacks |
| FrameProcessing.Crunches | app/utils/frame_processor.py:202-214 | definition: the crunches rules; properties in FrameProcessing.CoreChecksNeverFire and FrameProcessing.CheckCrunches |
| FrameProcessing.Lunges | app/utils/frame_processor.py:216-231 | definition: the lunges rules; properties in FrameProcessing.CoreChecksNeverFire, FrameProcessing.StraightnessTest and FrameProcessing.CheckLunges |
| FrameProcessing.Planks | app/utils/frame_processor.py:233-245 | definition: the planks rules; properties in FrameProcessing.PlanksNeverCorrected and FrameProcessing.CheckPlanks |
| FrameProcessing.Squats | app/utils/frame_processor.py:247-258 | definition: the squats rule; properties in FrameProcessing.SquatsEndWarning and FrameProcessing.CheckSquats |
| FrameProcessing.ArmsCheckNeverFires | app/utils/frame_processor.py:190 | the jumping-jacks arms message is never produced |
| FrameProcessing.PlanksNeverCorrected | app/utils/frame_processor.py:242-245 | a planks pose never gets a correction |
| FrameProcessing.JumpingJacksStartAtMostOne | app/utils/frame_processor.py:186-189 | starting jumping jacks draws at most one message: the feet cannot be both too close and too wide |
| FrameProcessing.StraightnessTest | app/utils/frame_processor.py:220 | for a folded angle, "above 190 or below 170" is the same as "below 170" |
| FrameProcessing.CoreChecksNeverFire | app/utils/frame_processor.py:204-221 | on a snapshot the processor built, neither the crunches-start message nor the lunges core message fires |
| FrameProcessing.SquatsEndWarning | app/utils/frame_processor.py:250-258 | squats-end is corrected exactly when the knee reaches or passes the toes, on the side chosen by the right knee being right of the right hip |
| FrameProcessing.OtherLabelsUncorrected | app/utils/frame_processor.py:260-261 | `random-random` never gets a correction |
| FrameProcessing.DarkCountIsSize | app/utils/frame_processor.py:272 | the count of dark pixels is the number of positions whose grey level is at most the threshold |
| FrameProcessing.BrightCountIsSize | app/utils/frame_processor.py:273 | the count of bright pixels is the number of positions whose grey level is at least the threshold |
| FrameProcessing.LightCheck | app/utils/frame_processor.py:265-282 | "too dark" exactly when more than 30% of pixels are at most 30; otherwise "overexposed" exactly when more than 30% are at least 225; otherwise nothing |
| FrameProcessing.FrameProcessor.constructor | app/utils/frame_processor.py:42-48 | a new processor holds no snapshot |
| FrameProcessing.FrameProcessor.GetPointsCoordinates | app/utils/frame_processor.py:56-69 | the loop builds exactly the re-centred fifteen joints, in `point_names` order |
| FrameProcessing.FrameProcessor.GetFrameFeatures | app/utils/frame_processor.py:86-161 | the result and the stored snapshot follow `Observe`: cleared and `None`, cleared and the gate error, or the snapshot stored and its feature vector returned |
| FrameProcessing.FrameProcessor.PoseCorrector | app/utils/frame_processor.py:163-263 | `None` with no snapshot or no message; otherwise the messages of the rule table, joined by single spaces in check order |
| FrameProcessing.CheckJumpingJacks | app/utils/frame_processor.py:174-200 | the appended feedback is exactly the jumping-jacks rules for the pose |
| FrameProcessing.CheckCrunches | app/utils/frame_processor.py:202-214 | the appended feedback is exactly the crunches rules for the pose |
| FrameProcessing.CheckLunges | app/utils/frame_processor.py:216-231 | the appended feedback is exactly the lunges rules for the pose |
| FrameProcessing.CheckPlanks | app/utils/frame_processor.py:233-245 | the appended feedback is exactly the planks rules |
| FrameProcessing.CheckSquats | app/utils/frame_processor.py:247-258 | the appended feedback is exactly the squats rule for the pose |
| PoseClassification.Stage2Input | app/utils/pose_classifier.py:22 | the second-stage input is the features followed by the first prediction, one entry longer |
| PoseClassification.Agree | app/utils/pose_classifier.py:26-30 | the answer is the sub-class or `random-random`; it is the sub-class whenever that starts with the class, and anything but random starts with the class |
| PoseClassification.Classify | app/utils/pose_classifier.py:18-30 | it succeeds exactly when both models answer, and then applies the agreement rule to their decoded names |
| PoseClassification.ClassifiedLabelAgrees | app/utils/pose_classifier.py:26-30 | a classified label is random or starts with the exercise the first model named |
| PoseClassification.DisagreementIsRandom | app/utils/pose_classifier.py:26-27 | disagreeing models give `random-random`, whose exercise is `random` |
| Speech.FileName | app/utils/speech_engine.py:44-45 | definition: the cache file of a text, its hash followed by ".mp3", with the hash an input; properties in Speech.DebounceExample and Speech.SynthesisedOnce |
| Speech.Seeded | app/utils/speech_engine.py:23-24 | the seeded history has one entry per file on disk, each valued 10 seconds before start-up |
| Speech.Step | app/utils/speech_engine.py:44-57 | a known file is played exactly when the request comes more than 10 seconds after its recorded time; an unknown file is synthesised (appended to the synthesised files) and played exactly when synthesis succeeds; playing stamps the file with the handling time, and a request that plays nothing changes nothing; other keys keep their entries |
| Speech.Run | app/utils/speech_engine.py:33-65 | definition: the cache after handling the requests up to the first kill signal; properties in Speech.KillStops, Speech.HistoryOnlyGrows, Speech.SynthesisedOnce and Speech.PlaysSpaced |
| Speech.PlayTimes | app/utils/speech_engine.py:46-57 | definition: the handling times at which one file is played over a run; properties in Speech.PlaysSpaced |
| Speech.PlaysSpaced | app/utils/speech_engine.py:53-57 | when no request is handled before it was made, each play of a file comes more than 10 seconds after its previous play (or its seeded time) |
| Speech.UntilKill | app/utils/speech_engine.py:34-38 | the handled requests are the prefix before the first kill signal |
| Speech.KillStops | app/utils/speech_engine.py:34-38 | requests after the kill signal change nothing |
| Speech.HistoryOnlyGrows | app/utils/speech_engine.py:46-57 | history keys are never removed, and every changed entry holds a handling time |
| Speech.KnownFileNeverSynthesised | app/utils/speech_engine.py:46-52 | a file already in the history is never synthesised again |
| Speech.SynthesisedOnce | app/utils/speech_engine.py:47-51 | over any run of requests, no file is synthesised twice |
| Speech.SeededReplays | app/utils/speech_engine.py:23-24 | a file seeded at start-up, requested after start-up, is replayed without synthesis |
| Speech.FailedSynthesisRetried | app/utils/speech_engine.py:47-60 | a failed synthesis changes nothing, so the next request for the text synthesises it |
| Speech.DebounceExample | app/utils/speech_engine.py:53-57 | requests at 0, 5 and 11 seconds: the first synthesises and plays, the second is suppressed, the third replays |
| Speech.SpeechEngine.constructor | app/utils/speech_engine.py:23-24 | the history starts seeded, and nothing has been synthesised or played |
| Speech.SpeechEngine.Serve | app/utils/speech_engine.py:33-65 | the loop leaves the object in the state the request-by-request function gives, up to the first kill signal |
| Engine.Advice | app/main_engine.py:56 | definition: `pose_corrector` on the stored snapshot; properties in FrameProcessing.FrameProcessor.PoseCorrector and Engine.MainEngine.Smooth |
| Engine.Enter | app/main_engine.py:48 | definition: the processor's new snapshot and the `finally` count of line 86; properties in Engine.AdvanceFacts |
| Engine.Sense | app/main_engine.py:50-73 | definition: smoothing and counting for a classified frame only; properties in Engine.AdvanceFacts, Engine.AdvanceCounts and Engine.AdvanceKeyed |
| Engine.Tally | app/main_engine.py:58-73 | definition: counting one smoothed label; properties in Engine.PoseCountedOnce, Engine.TallyKeepsKeyed, Engine.TallyEventsKeyed, Engine.RandomIgnored and Engine.EndCountsIffStarted |
| Engine.CloseSet | app/main_engine.py:62-67 | definition: closing a set on an end label; properties in Engine.EndCountsIffStarted, Engine.StartThenEnd, Engine.RepeatedEndIgnored and Engine.EndWithoutStartIgnored |
| Engine.AddFifth | app/main_engine.py:68-72 | definition: the planks increment; properties in Engine.PlanksAddFifth and Engine.FivePlanksMakeOne |
| Engine.LightStep | app/main_engine.py:76-79 | definition: the throttled light check; properties in Engine.LightThrottled |
| Engine.Perceive | app/main_engine.py:48-50 | definition: featurising and classifying one frame; properties in Engine.PerceiveCases |
| Engine.Advance | app/main_engine.py:46-86 | definition: one loop body from a perceived frame; properties in Engine.AdvanceFacts, Engine.AdvanceSpeaks, Engine.AdvanceKeyed and Engine.AdvanceCounts |
| Engine.FrameStep | app/main_engine.py:44-88 | definition: one loop body on a frame; properties in Engine.MainEngine.HandleFrame and the Run lemmas |
| Engine.Run | app/main_engine.py:38-88 | definition: the loop over the items up to the kill signal; properties in Engine.ShutdownStops, Engine.RunCountsItems, Engine.RunCountsPoses, Engine.RunSpeaksErrors, Engine.RunKeyed and Engine.MainEngine.Serve |
| Engine.Raise | app/main_engine.py:80-83 | an error appends exactly one error event carrying the current counters, and appends its text to what is spoken; nothing else changes |
| Engine.UntilShutdown | app/main_engine.py:39-42 | the handled items are the prefix before the first kill signal |
| Engine.PoseCountedOnce | app/main_engine.py:58-59 | every smoothed label, random included, raises its exercise's pose count and the pose total by exactly one |
| Engine.TallyKeepsKeyed | app/main_engine.py:58-73 | counting a label never puts a key twice into either dictionary |
| Engine.TallyEventsKeyed | app/main_engine.py:66-72 | the `add` events of a label carry dictionaries with one entry per key |
| Engine.RandomIgnored | app/main_engine.py:61-73 | a random label changes neither the set counts nor the ongoing pose, and puts no event |
| Engine.EndCountsIffStarted | app/main_engine.py:62-67 | an end label adds one set and puts one `add` event exactly when the ongoing pose is its start label; otherwise the sets and events are unchanged; either way it becomes the ongoing pose |
| Engine.StartThenEnd | app/main_engine.py:62-67 | `<ex>-start` then `<ex>-end` adds exactly one set, with one event |
| Engine.RepeatedEndIgnored | app/main_engine.py:62-73 | a second end label in a row adds nothing |
| Engine.EndWithoutStartIgnored | app/main_engine.py:62 | an end label with no ongoing pose adds nothing |
| Engine.PlanksAddFifth | app/main_engine.py:68-72 | every planks label adds 0.2 to the planks count and puts one `add` event named "planks" |
| Engine.FivePlanksMakeOne | app/main_engine.py:68-72 | five planks labels in a row add exactly 1.0 |
| Engine.AdvanceFacts | app/main_engine.py:46-86 | per frame: the window takes the raw label of a classified frame (and stays within three), one more item is counted, the processor holds the frame's snapshot, and an exception changes no counter and puts exactly one error event |
| Engine.AdvanceSpeaks | app/main_engine.py:76-83 | per frame: outputs are only appended, the texts spoken stay exactly the error texts, and an error event is the frame's last, carrying the counters after the frame's own counting |
| Engine.AdvanceKeyed | app/main_engine.py:58-82 | per frame, the counters and every event put keep one entry per key |
| Engine.AdvanceCounts | app/main_engine.py:48-59 | per frame, the pose total goes up by one exactly when the frame is classified |
| Engine.LightThrottled | app/main_engine.py:76-79 | the light check's time is recorded exactly when the check is due (none yet, or more than 2 s later) and no exception came first; a failing check still records it |
| Engine.PerceiveCases | app/main_engine.py:48-50 | no pose means nothing classified; a failed gate raises its message with nothing held; a classified frame holds its gated joints, and its label is random or agrees with the first model |
| Engine.ShutdownStops | app/main_engine.py:38-42 | items after the kill signal change nothing |
| Engine.RunCountsItems | app/main_engine.py:38-86 | over a run, the window never exceeds three labels, and the item count grows by the number of frames before the kill signal |
| Engine.RunCountsPoses | app/main_engine.py:38-59 | over a run, the pose total grows by exactly the number of classified frames |
| Engine.RunSpeaksErrors | app/main_engine.py:80-83 | over a run, outputs are only appended, and what is spoken stays exactly the error texts, in order |
| Engine.RunKeyed | app/main_engine.py:38-88 | over a run, the counters and every event keep one entry per key |
| Engine.FreshRunKeyed | app/main_engine.py:31-36 | a run from fresh counters puts only events with one entry per key |
| Engine.MainEngine.constructor | app/main_engine.py:13-21 | a new engine has a fresh processor with no snapshot, an empty window, no light check yet, and nothing put or spoken |
| Engine.MainEngine.Serve | app/main_engine.py:30-88 | the loop ends in the state the item-by-item function gives from fresh counters, up to the first kill signal |
| Engine.MainEngine.HandleFrame | app/main_engine.py:44-88 | one loop body leaves the object and locals exactly as one step of the item-by-item function |
| Engine.MainEngine.Smooth | app/main_engine.py:52-57 | the window slides by the raw label; the vote is counted with the correction for the stored snapshot, and its events are put; nothing is spoken |
| Engine.MainEngine.Push | app/main_engine.py:52-53 | the window is slid by the raw label, and nothing else changes |
| Engine.MainEngine.LightPhase | app/main_engine.py:76-79 | the object changes exactly as the throttled light check prescribes |
| Engine.MainEngine.Fail | app/main_engine.py:80-83 | one error event with the given counters is put and its text spoken; the window and light-check time are kept |
| Engine.MainEngine.Count | app/main_engine.py:58-73 | the counters and the events put are those of the label's tally; nothing is spoken |
| Report.Title | app/app.py:27 | `title()` keeps length and letters; it upper-cases a letter at a word start and lower-cases a letter inside a word |
| Report.TitleIdempotent | app/app.py:27 | titling a title changes nothing |
| Report.ReplaceChar | app/app.py:27 | replacing one character by another keeps the length, swaps every occurrence and moves nothing else |
| Report.Caption | app/app.py:27 | definition: `k.replace('_',' ').title()`, also at lines 32 and 58; properties in Report.CaptionShape |
| Report.CaptionShape | app/app.py:27 | a caption is as long as its key, shows a space for each '_', and capitalises the first letter of each '_'-separated word |
| Report.RoundingError | app/app.py:31 | the rounded intensity is within half a tenth of the exact ratio |
| Report.RoundingBounds | app/app.py:31 | a ratio of at most one rounds to at most 1.0; a ratio of one rounds to 1.0 and a ratio of zero to 0.0 |
| Report.IntensityFacts | app/app.py:28-31 | intensity fails (division by zero) exactly when no pose was counted; otherwise it is at most 1.0, is 1.0 with no random pose, and is 0.0 with only random poses |
| Report.SetsLines | app/app.py:25-27 | one line per set entry, in dictionary order, captioned from its key |
| Report.FinalReportFacts | app/app.py:19-33 | a report exists exactly when stopped with a saved event; it fails exactly when that event counted no pose; otherwise it holds the set lines in order, then one intensity line whose value is within 0.05 of the exact share |
| Report.Intensity | app/app.py:28-31 | definition: the rounded share of exercise poses, or the division-by-zero error; properties in Report.IntensityFacts |
| Report.RoundTenths | app/app.py:31 | definition: `round(x, 1)` on an exact ratio, in tenths; properties in Report.RoundingError and Report.RoundingBounds |
| Report.FinalReport | app/app.py:19-33 | definition: the report shown on a stopped page from its saved event; properties in Report.FinalReportFacts and Report.ReportOfPolled |
| Report.Poll | app/app.py:52-68 | each pass reads at most one event, in the order put; the saved output is the last event read, or the earlier saved output when none was read |
| Report.ReportOfPolled | app/app.py:19-33 | once the page has read an event the engine put, the report fails exactly when stopped after a last read event that counted no pose |
| Report.Pushes | app/app.py:45-50 | at most one frame is pushed per pass of the capture loop |
| Report.Pace | app/app.py:40-68 | the camera loop pushes exactly the frames the throttle function selects, and reads and saves exactly the events the polling function gives |
| Report.PushesSpaced | app/app.py:45-50 | with a clock that never runs backwards, the first push is at least 0.2 s after the start, and any two pushes are at least 0.2 s apart |

## Left out

- Queues and processes (`app/utils/worker.py`, `mp.Queue`, `mp.Process`) are not modelled. Each worker's input is a finite sequence ending, possibly, in the kill signal; outputs and spoken texts are sequences the engine appends to.
- An event's dictionaries are a snapshot taken when the event is put. In the program, a queued event holds references to the dictionaries, which later frames may still mutate before the event is pickled.
- MediaPipe landmark detection, `cv2.cvtColor`, joblib model loading and prediction, gTTS, `playsound`, `os` directory access and `hashlib.md5` are foreign calls. Their results are inputs: a `Frame`'s landmarks and grey levels, a `Models` record of functions, a success flag, a list of file names and a hash function.
- `np.sqrt` and `np.arccos` are functions of a `Trig` record with stated ranges. IEEE floating point is not modelled: coordinates are exact reals, and NaN and infinities are `None`.
- Report.RoundTenths: rounds the exact ratio half-to-even. Python rounds the nearest binary float, which can round a tie such as 0.35 or 0.45 the other way.
- Report.Title: covers ASCII letters only. Python's `title()` also cases other Unicode letters.
- Report.SetsLines: the value is shown as the raw count. `str(v)` formatting and the HTML templates are not modelled.
- The Streamlit widgets and the camera are left out. `st.session_state` holds only the saved output, which is a parameter. `RUN_STATUS` is a constant for one run of the script.
- Report.Poll: whether the queue shows an event on a pass is an input, since it depends on timing between processes. Events the page never read, such as those the engine puts after the page's last pass, never reach the report.
- The drain loop at `app/app.py:76-78` is left out. It never polls again, so it would spin forever once an output is waiting.
- The `__main__` demo at the end of `app/utils/frame_processor.py` is left out.
- Speech.Step: "played" records each call to `playsound`. Playback itself is not modelled. An exception from `playsound` after a successful synthesis is not modelled either: it would leave the history entry set but nothing played.
- The engine state's `said` field holds the texts handed to the speech worker. The enqueue time-stamps `say` attaches are not kept.
- Engine.MainEngine.Serve: returns the loop's locals (`count` and the counters), which the program keeps only inside `main`.
- FrameProcessing.FrameProcessor.constructor: starts with no snapshot. The program has no `coordinates` attribute until the first `get_frame_features`. The engine always featurises before correcting, so the difference is never observable there.
- The pose classifier's own `__init__` (model loading) and the unused `body_angle` of the jumping-jacks rules carry no logic.
- Scaling invariance of the features is not proved. Translation invariance is proved for distances and angles (`Geometry.TranslationInvariant`).
- Engine.PlanksAddFifth: the planks count is a sum of exact reals. In Python each planks label adds the float 0.2, so ten in a row give 1.9999999999999998, which `%d` on the page shows as 1. Engine.FivePlanksMakeOne likewise holds only over exact reals.
