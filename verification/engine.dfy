/**
 * The main engine: the worker that takes time-stamped camera frames off its
 * input queue, featurises and classifies each one, smooths the label over a
 * window of three, counts poses and completed sets, throttles the light check
 * and turns every failure into an error event that is also spoken.
 *
 * The queues between the processes are sequences here: the input queue is a
 * finite sequence of items ending (possibly) in the kill signal, the output
 * queue and the speech worker's queue are sequences the engine appends to.
 * The pose detector, the trained models, `sqrt` and `arccos` are parameters
 * (see the frame processor and the classifier).
 */
module Engine {

  import opened Wrappers
  import opened Labels
  import opened Dicts
  import opened Smoothing
  import opened Geometry
  import opened FrameProcessing
  import opened PoseClassification

  /** An item of the engine's input queue: the kill signal `0`, or `(time_stamp, frame)`. */
  datatype Input = Shutdown | Item(stamp: real, frame: Frame)

  /**
   * An item of the engine's output queue: a completed set (or planks fifth)
   * with the correction for the frame, or an error text; both carry the
   * counters as they were when the event was put.
   */
  datatype Event =
    | Add(exercise: string, correction: Option<string>, setsCounts: Dict<real>, poseCounts: Dict<nat>)
    | Error(text: string, poseCounts: Dict<nat>, setsCounts: Dict<real>)

  /** The locals of the loop: `pose_counts`, `sets_counts` and `ongoing_pose`. */
  datatype Counters = Counters(poseCounts: Dict<nat>, setsCounts: Dict<real>, ongoing: Option<string>)

  /** The counters at the start of the loop. */
  const NoCounters: Counters := Counters([], [], None)

  /** The name planks events are reported under. */
  const PlanksExercise: string := "planks"

  /** The light check runs again only after more than this many seconds of frame time. */
  const LightGap: real := 2.0

  /** Both counters are proper dictionaries. */
  predicate CountersKeyed(k: Counters) {
    Keyed(k.poseCounts) && Keyed(k.setsCounts)
  }

  /** The end label `pose` closes the set that `ongoing` opened. */
  predicate Closes(ongoing: Option<string>, pose: string) {
    EndsWith(pose, "-end") && ongoing == Some(Replace(pose, "end", "start"))
  }

  /**
   * The counter update for one smoothed label (lines 58-73): the pose count of
   * its exercise goes up by one; for a non-random label, an end label that
   * closes the ongoing start label adds a set, a planks label adds a fifth,
   * each with an `add` event, and the label becomes the ongoing one.
   */
  function Tally(k: Counters, pose: string, correction: Option<string>): (Counters, seq<Event>) {
    var ex := Exercise(pose);
    var poses := Put(k.poseCounts, ex, Get(k.poseCounts, ex, 0) + 1);
    if ex == RandomExercise then (k.(poseCounts := poses), [])
    else
      var (sets1, events1) := CloseSet(k.setsCounts, k.ongoing, pose, ex, correction, poses);
      var (sets2, events2) := AddFifth(sets1, pose, ex, correction, poses);
      (Counters(poses, sets2, Some(pose)), events1 + events2)
  }

  /** Lines 62-67: an end label that closes the ongoing start label adds a set, with an `add` event. */
  function CloseSet(sets: Dict<real>, ongoing: Option<string>, pose: string, ex: string,
                    correction: Option<string>, poses: Dict<nat>): (Dict<real>, seq<Event>)
  {
    if Closes(ongoing, pose) then
      var sets' := Put(sets, ex, Get(sets, ex, 0.0) + 1.0);
      (sets', [Add(ex, correction, sets', poses)])
    else (sets, [])
  }

  /** Lines 68-72: a planks label adds a fifth, with an `add` event named "planks". */
  function AddFifth(sets: Dict<real>, pose: string, ex: string,
                    correction: Option<string>, poses: Dict<nat>): (Dict<real>, seq<Event>)
  {
    if EndsWith(pose, "planks") then
      var sets' := Put(sets, ex, Get(sets, ex, 0.0) + 0.2);
      (sets', [Add(PlanksExercise, correction, sets', poses)])
    else (sets, [])
  }

  /**
   * Everything the engine's loop has produced: the window, the time of the
   * last light check, the snapshot the frame processor holds, the loop's
   * counters, the output events, the texts handed to the speech worker and
   * the number of items handled.
   */
  datatype State = State(
    window: seq<string>,
    lastLight: Option<real>,
    coordinates: Option<Snapshot>,
    counters: Counters,
    outputs: seq<Event>,
    said: seq<string>,
    count: nat)

  /** The `except` branch: an error event with the current counters, and the text spoken. */
  function Raise(e: State, text: string): (r: State)
    ensures r.outputs == e.outputs + [Error(text, e.counters.poseCounts, e.counters.setsCounts)]
    ensures r.said == e.said + [text]
    ensures r.(outputs := e.outputs, said := e.said) == e
  {
    e.(outputs := e.outputs + [Error(text, e.counters.poseCounts, e.counters.setsCounts)], said := e.said + [text])
  }

  /** Whether the light check is due for a frame taken at `stamp`. */
  predicate LightDue(lastLight: Option<real>, stamp: real) {
    lastLight.None? || stamp - lastLight.value > LightGap
  }

  /**
   * The throttled light check (lines 76-79), `status` being what `lightcheck`
   * says of the frame: when due, the check time is recorded before the status
   * is asserted, so a failing check still counts as a check.
   */
  function LightStep(e: State, stamp: real, status: Option<string>): State {
    if LightDue(e.lastLight, stamp) then
      var e' := e.(lastLight := Some(stamp));
      match status
      case None => e'
      case Some(text) => Raise(e', text)
    else e
  }

  /** What `pose_corrector` answers for a stored snapshot. */
  function Advice(t: Trig, c: Snapshot, pose: string): Option<string>
    requires Sound(t)
  {
    var msgs := Corrections(t, c, pose);
    if msgs == [] then None else Some(Join(msgs))
  }

  /**
   * A classified frame: the raw label enters the window, the vote is counted
   * with the correction `advise` gives for the voted label.
   */
  function Classified(e: State, raw: string, advise: string -> Option<string>): State {
    var window := Slide(e.window, raw);
    var pose := MostCommon(window);
    var (counters, events) := Tally(e.counters, pose, advise(pose));
    e.(window := window, counters := counters, outputs := e.outputs + events)
  }

  /**
   * What featurising and classifying a frame came to: an exception (with what
   * the frame processor then holds), no pose in the frame, or a snapshot and
   * the classifier's raw label.
   */
  datatype Outcome =
    | Raised(held: Option<Snapshot>, message: string)
    | NoPose
    | Recognised(snapshot: Snapshot, raw: string, advise: string -> Option<string>)

  /**
   * Lines 48-50: `get_frame_features` (which stores the snapshot before the
   * classifier runs), then `classify` when features came back.
   */
  function Perceive(t: Trig, m: Models, f: Frame): (o: Outcome)
    requires Sound(t) && WellFormed(f)
  {
    match Observe(t, f)
    case Err(msg) => Raised(None, msg)
    case Ok(None) => NoPose
    case Ok(Some(c)) =>
      match Classify(m, FeatureVector(t, c))
      case Err(msg) => Raised(Some(c), msg)
      case Ok(raw) => Recognised(c, raw, pose => Advice(t, c, pose))
  }

  /** What the frame processor holds after the frame. */
  function Held(o: Outcome): Option<Snapshot> {
    match o
    case Raised(held, _) => held
    case NoPose => None
    case Recognised(c, _, _) => Some(c)
  }

  /**
   * The rest of the loop body once the outcome is known: on an exception the
   * error event, otherwise smoothing and counting (for a classified frame) and
   * the light check. The item count goes up in every case (the `finally`).
   */
  function Advance(e: State, stamp: real, status: Option<string>, o: Outcome): State {
    var e1 := Enter(e, o);
    if o.Raised? then Raise(e1, o.message) else LightStep(Sense(e1, o), stamp, status)
  }

  /** The frame processor's new snapshot, and one more item counted (the `finally`). */
  function Enter(e: State, o: Outcome): State {
    e.(coordinates := Held(o), count := e.count + 1)
  }

  /** Smoothing and counting, for a classified frame only. */
  function Sense(e: State, o: Outcome): State {
    if o.Recognised? then Classified(e, o.raw, o.advise) else e
  }

  /** One pass of the loop body for the frame `f` taken at `stamp`. */
  function FrameStep(t: Trig, m: Models, e: State, stamp: real, f: Frame): (r: State)
    requires Sound(t) && WellFormed(f)
  {
    Advance(e, stamp, LightCheck(f.grey), Perceive(t, m, f))
  }

  /** Every frame of `inputs` is one the frame processor can read. */
  predicate FramesWellFormed(inputs: seq<Input>) {
    forall i :: 0 <= i < |inputs| && inputs[i].Item? ==> WellFormed(inputs[i].frame)
  }

  /** The loop: items are handled in order up to the first kill signal. */
  function Run(t: Trig, m: Models, e: State, inputs: seq<Input>): State
    requires Sound(t) && FramesWellFormed(inputs)
    decreases |inputs|
  {
    if inputs == [] || inputs[0].Shutdown? then e
    else Run(t, m, FrameStep(t, m, e, inputs[0].stamp, inputs[0].frame), inputs[1..])
  }

  /** The items handled before the first kill signal. */
  function UntilShutdown(inputs: seq<Input>): (r: seq<Input>)
    ensures |r| <= |inputs| && r == inputs[..|r|]
    ensures forall i :: 0 <= i < |r| ==> r[i].Item?
    ensures |r| < |inputs| ==> inputs[|r|].Shutdown?
  {
    if inputs == [] || inputs[0].Shutdown? then [] else [inputs[0]] + UntilShutdown(inputs[1..])
  }

  /** The frame is featurised and classified without an exception. */
  predicate Counted(t: Trig, m: Models, f: Frame)
    requires Sound(t) && WellFormed(f)
  {
    Perceive(t, m, f).Recognised?
  }

  /** How many frames before the first kill signal are classified. */
  function CountedFrames(t: Trig, m: Models, inputs: seq<Input>): nat
    requires Sound(t) && FramesWellFormed(inputs)
    decreases |inputs|
  {
    if inputs == [] || inputs[0].Shutdown? then 0
    else (if Counted(t, m, inputs[0].frame) then 1 else 0) + CountedFrames(t, m, inputs[1..])
  }

  /** The texts of the error events in `events`, in order. */
  function ErrorTexts(events: seq<Event>): (r: seq<string>)
    ensures |r| <= |events|
  {
    if events == [] then []
    else (if events[0].Error? then [events[0].text] else []) + ErrorTexts(events[1..])
  }

  /** Helper: the error texts of a concatenation. */
  lemma {:induction false} ErrorTextsAppend(a: seq<Event>, b: seq<Event>)
    ensures ErrorTexts(a + b) == ErrorTexts(a) + ErrorTexts(b)
    decreases |a|
  {
    if a != [] {
      var head := if a[0].Error? then [a[0].text] else [];
      assert (a + b)[0] == a[0];
      assert (a + b)[1..] == a[1..] + b;
      ErrorTextsAppend(a[1..], b);
      assert ErrorTexts(a + b) == head + (ErrorTexts(a[1..]) + ErrorTexts(b));
      assert head + (ErrorTexts(a[1..]) + ErrorTexts(b)) == (head + ErrorTexts(a[1..])) + ErrorTexts(b);
    } else {
      assert a + b == b;
    }
  }

  // ---------------------------------------------------------------- properties of one label

  /** Every smoothed label raises the total of the pose counts by exactly one, random included. */
  lemma {:induction false} PoseCountedOnce(k: Counters, pose: string, correction: Option<string>)
    ensures Total(Tally(k, pose, correction).0.poseCounts) == Total(k.poseCounts) + 1
    ensures Get(Tally(k, pose, correction).0.poseCounts, Exercise(pose), 0) == Get(k.poseCounts, Exercise(pose), 0) + 1
  {
    var ex := Exercise(pose);
    IncrementTotal(k.poseCounts, ex);
    PutGet(k.poseCounts, ex, Get(k.poseCounts, ex, 0) + 1, ex, 0);
  }

  /** Counting a label never puts a key twice into either dictionary. */
  lemma {:induction false} TallyKeepsKeyed(k: Counters, pose: string, correction: Option<string>)
    requires CountersKeyed(k)
    ensures CountersKeyed(Tally(k, pose, correction).0)
  {
    var ex := Exercise(pose);
    var poses := Put(k.poseCounts, ex, Get(k.poseCounts, ex, 0) + 1);
    PutKeyed(k.poseCounts, ex, Get(k.poseCounts, ex, 0) + 1);
    if ex != RandomExercise {
      var c := CloseSet(k.setsCounts, k.ongoing, pose, ex, correction, poses);
      CloseSetKeyed(k.setsCounts, k.ongoing, pose, ex, correction, poses);
      AddFifthKeyed(c.0, pose, ex, correction, poses);
    }
  }

  /** The events a label puts carry proper dictionaries when the counters are. */
  lemma {:induction false} TallyEventsKeyed(k: Counters, pose: string, correction: Option<string>)
    requires CountersKeyed(k)
    ensures AllKeyed(Tally(k, pose, correction).1)
  {
    var ex := Exercise(pose);
    var poses := Put(k.poseCounts, ex, Get(k.poseCounts, ex, 0) + 1);
    PutKeyed(k.poseCounts, ex, Get(k.poseCounts, ex, 0) + 1);
    if ex != RandomExercise {
      var c := CloseSet(k.setsCounts, k.ongoing, pose, ex, correction, poses);
      CloseSetKeyed(k.setsCounts, k.ongoing, pose, ex, correction, poses);
      var d := AddFifth(c.0, pose, ex, correction, poses);
      AddFifthKeyed(c.0, pose, ex, correction, poses);
      assert Tally(k, pose, correction).1 == c.1 + d.1;
    }
  }

  /** Every event carries proper dictionaries. */
  predicate AllKeyed(events: seq<Event>) {
    forall i :: 0 <= i < |events| ==> Keyed(events[i].poseCounts) && Keyed(events[i].setsCounts)
  }

  /** Helper: closing a set keeps the dictionaries proper. */
  lemma {:induction false} CloseSetKeyed(sets: Dict<real>, ongoing: Option<string>, pose: string, ex: string,
                    correction: Option<string>, poses: Dict<nat>)
    requires Keyed(sets) && Keyed(poses)
    ensures var (sets', events) := CloseSet(sets, ongoing, pose, ex, correction, poses);
      Keyed(sets') && AllKeyed(events)
  {
    PutKeyed(sets, ex, Get(sets, ex, 0.0) + 1.0);
  }

  /** Helper: adding a planks fifth keeps the dictionaries proper. */
  lemma {:induction false} AddFifthKeyed(sets: Dict<real>, pose: string, ex: string,
                    correction: Option<string>, poses: Dict<nat>)
    requires Keyed(sets) && Keyed(poses)
    ensures var (sets', events) := AddFifth(sets, pose, ex, correction, poses);
      Keyed(sets') && AllKeyed(events)
  {
    PutKeyed(sets, ex, Get(sets, ex, 0.0) + 0.2);
  }

  /** A random label changes neither the set counts nor the ongoing label, and puts no event. */
  lemma {:induction false} RandomIgnored(k: Counters, pose: string, correction: Option<string>)
    requires Exercise(pose) == RandomExercise
    ensures var (k', events) := Tally(k, pose, correction);
      k'.setsCounts == k.setsCounts && k'.ongoing == k.ongoing && events == []
  {
  }

  /** Helper: a label ending in "-end" does not end in "planks". */
  lemma {:induction false} EndIsNotPlanks(pose: string)
    requires EndsWith(pose, "-end")
    ensures !EndsWith(pose, "planks")
  {
    assert pose[|pose| - 1] == 'd' by {
      assert pose[|pose| - 4..][3] == pose[|pose| - 1];
    }
  }

  /**
   * An end label of an exercise adds one set and puts one `add` event exactly
   * when the ongoing label is the matching start label; otherwise the set
   * counts are unchanged and nothing is put. Either way it becomes ongoing.
   */
  lemma {:induction false} EndCountsIffStarted(k: Counters, pose: string, correction: Option<string>)
    requires EndsWith(pose, "-end") && Exercise(pose) != RandomExercise
    ensures var ex := Exercise(pose);
      var (k', events) := Tally(k, pose, correction);
      && k'.ongoing == Some(pose)
      && (Closes(k.ongoing, pose) ==>
            k'.setsCounts == Put(k.setsCounts, ex, Get(k.setsCounts, ex, 0.0) + 1.0)
            && events == [Add(ex, correction, k'.setsCounts, k'.poseCounts)])
      && (!Closes(k.ongoing, pose) ==> k'.setsCounts == k.setsCounts && events == [])
  {
    EndIsNotPlanks(pose);
  }

  /** For a trained exercise, "-end" closes exactly "-start". */
  lemma {:induction false} StartThenEnd(ex: string, k: Counters, correction: Option<string>)
    requires '-' !in ex && !Contains(ex, "end") && ex != RandomExercise
    ensures Closes(Some(ex + "-start"), ex + "-end")
    ensures var (k', events) := Tally(k.(ongoing := Some(ex + "-start")), ex + "-end", correction);
      Get(k'.setsCounts, ex, 0.0) == Get(k.setsCounts, ex, 0.0) + 1.0 && |events| == 1
  {
    var pose := ex + "-end";
    assert pose[|ex|] == '-' && pose[..|ex|] == ex;
    ExerciseOfPrefix(ex, pose);
    EndPairsWithStart(ex);
    assert pose[|pose| - 4..] == "-end";
    EndIsNotPlanks(pose);
    PutGet(k.setsCounts, ex, Get(k.setsCounts, ex, 0.0) + 1.0, ex, 0.0);
  }

  /** A second end label in a row adds nothing: the ongoing label is then the end label. */
  lemma {:induction false} RepeatedEndIgnored(ex: string, k: Counters, c1: Option<string>, c2: Option<string>)
    requires '-' !in ex && !Contains(ex, "end") && ex != RandomExercise
    ensures var pose := ex + "-end";
      var (k1, _) := Tally(k, pose, c1);
      var (k2, events) := Tally(k1, pose, c2);
      k2.setsCounts == k1.setsCounts && events == []
  {
    var pose := ex + "-end";
    assert pose[|ex|] == '-' && pose[..|ex|] == ex;
    ExerciseOfPrefix(ex, pose);
    EndPairsWithStart(ex);
    assert pose[|pose| - 4..] == "-end";
    EndIsNotPlanks(pose);
    assert (ex + "-start")[|ex| + 1] == 's' && pose[|ex| + 1] == 'e';
    assert !Closes(Some(pose), pose);
  }

  /** An end label with no ongoing label adds nothing. */
  lemma {:induction false} EndWithoutStartIgnored(k: Counters, pose: string, correction: Option<string>)
    requires k.ongoing.None? && EndsWith(pose, "-end") && Exercise(pose) != RandomExercise
    ensures var (k', events) := Tally(k, pose, correction);
      k'.setsCounts == k.setsCounts && events == []
  {
    EndIsNotPlanks(pose);
  }

  /** Every planks label adds a fifth to the planks count and puts one `add` event named "planks". */
  lemma {:induction false} PlanksAddFifth(k: Counters, pose: string, correction: Option<string>)
    requires Exercise(pose) == PlanksExercise && EndsWith(pose, "planks")
    ensures var (k', events) := Tally(k, pose, correction);
      && Get(k'.setsCounts, PlanksExercise, 0.0) == Get(k.setsCounts, PlanksExercise, 0.0) + 0.2
      && |events| == 1 && events[0].Add? && events[0].exercise == PlanksExercise
  {
    if EndsWith(pose, "-end") {
      EndIsNotPlanks(pose);
    }
    PutGet(k.setsCounts, PlanksExercise, Get(k.setsCounts, PlanksExercise, 0.0) + 0.2, PlanksExercise, 0.0);
  }

  /** Five planks frames in a row add one whole unit. */
  lemma {:induction false} FivePlanksMakeOne(k: Counters, pose: string, cs: seq<Option<string>>)
    requires Exercise(pose) == PlanksExercise && EndsWith(pose, "planks") && |cs| == 5
    ensures var k1 := Tally(k, pose, cs[0]).0;
      var k2 := Tally(k1, pose, cs[1]).0;
      var k3 := Tally(k2, pose, cs[2]).0;
      var k4 := Tally(k3, pose, cs[3]).0;
      var k5 := Tally(k4, pose, cs[4]).0;
      Get(k5.setsCounts, PlanksExercise, 0.0) == Get(k.setsCounts, PlanksExercise, 0.0) + 1.0
  {
    var k1 := Tally(k, pose, cs[0]).0;
    var k2 := Tally(k1, pose, cs[1]).0;
    var k3 := Tally(k2, pose, cs[2]).0;
    var k4 := Tally(k3, pose, cs[3]).0;
    PlanksAddFifth(k, pose, cs[0]);
    PlanksAddFifth(k1, pose, cs[1]);
    PlanksAddFifth(k2, pose, cs[2]);
    PlanksAddFifth(k3, pose, cs[3]);
    PlanksAddFifth(k4, pose, cs[4]);
  }

  // ---------------------------------------------------------------- properties of one frame

  /** `r` only appended to the output queue of `e`. */
  predicate Extends(e: State, r: State) {
    |e.outputs| <= |r.outputs| && r.outputs[..|e.outputs|] == e.outputs
  }

  /** What the engine handed to the speech worker is exactly the texts of its error events, in order. */
  predicate Spoken(e: State) {
    e.said == ErrorTexts(e.outputs)
  }

  /** Every error event `r` appended to `e`'s outputs is the last one and carries `r`'s counters. */
  predicate ErrorsLast(e: State, r: State)
    requires |e.outputs| <= |r.outputs|
  {
    forall i :: |e.outputs| <= i < |r.outputs| && r.outputs[i].Error? ==>
      i == |r.outputs| - 1
      && r.outputs[i].poseCounts == r.counters.poseCounts
      && r.outputs[i].setsCounts == r.counters.setsCounts
  }

  /** Helper: raising after only `add` events keeps the account and puts the error last. */
  lemma {:induction false} RaiseAccounted(e0: State, e: State, text: string)
    requires Extends(e0, e) && (Spoken(e0) ==> Spoken(e))
    requires forall i :: |e0.outputs| <= i < |e.outputs| ==> e.outputs[i].Add?
    ensures Extends(e0, Raise(e, text)) && ErrorsLast(e0, Raise(e, text))
    ensures Spoken(e0) ==> Spoken(Raise(e, text))
  {
    var r := Raise(e, text);
    var last := r.outputs[|r.outputs| - 1];
    assert r.outputs == e.outputs + [last];
    ErrorTextsAppend(e.outputs, [last]);
    assert ErrorTexts([last]) == [text] by {
      assert [last][1..] == [];
    }
    assert r.outputs[..|e0.outputs|] == e.outputs[..|e0.outputs|];
  }

  /** Helper: the events of a tally are all `add` events. */
  lemma {:induction false} EventsOfTallyAreAdds(k: Counters, pose: string, correction: Option<string>)
    ensures var events := Tally(k, pose, correction).1;
      |events| <= 2 && (forall i :: 0 <= i < |events| ==> events[i].Add?) && ErrorTexts(events) == []
  {
    var events := Tally(k, pose, correction).1;
    if |events| == 2 {
      assert events[1..][1..] == [];
    } else if |events| == 1 {
      assert events[1..] == [];
    }
  }

  /** Helper: a classified frame only appends `add` events, and speaks nothing. */
  lemma {:induction false} ClassifiedAccounted(e: State, raw: string, advise: string -> Option<string>)
    ensures var r := Classified(e, raw, advise);
      && Extends(e, r) && ErrorsLast(e, r) && (Spoken(e) ==> Spoken(r))
      && (forall i :: |e.outputs| <= i < |r.outputs| ==> r.outputs[i].Add?)
      && r.window == Slide(e.window, raw) && r.lastLight == e.lastLight
  {
    var window := Slide(e.window, raw);
    var pose := MostCommon(window);
    var events := Tally(e.counters, pose, advise(pose)).1;
    EventsOfTallyAreAdds(e.counters, pose, advise(pose));
    var r := Classified(e, raw, advise);
    assert r.outputs == e.outputs + events;
    ErrorTextsAppend(e.outputs, events);
  }

  /**
   * What the rest of the loop body does, whatever the outcome: the window is
   * slid by the raw label of a classified frame and left alone otherwise, so
   * it never holds more than three labels; one more item is counted; the
   * frame processor holds the frame's snapshot; an exception changes no
   * counter and puts exactly one error event.
   */
  lemma {:induction false} AdvanceFacts(e: State, stamp: real, status: Option<string>, o: Outcome)
    ensures var r := Advance(e, stamp, status, o);
      && r.window == (if o.Recognised? then Slide(e.window, o.raw) else e.window)
      && (|e.window| <= WindowSize ==> |r.window| <= WindowSize)
      && r.coordinates == Held(o) && r.count == e.count + 1
      && (o.Raised? ==>
            r.counters == e.counters && r.lastLight == e.lastLight
            && r.outputs == e.outputs + [Error(o.message, e.counters.poseCounts, e.counters.setsCounts)])
  {
    var e1 := Enter(e, o);
    if !o.Raised? {
      var c := Sense(e1, o);
      if o.Recognised? {
        ClassifiedAccounted(e1, o.raw, o.advise);
      }
      LightKeeps(c, stamp, status);
    }
  }

  /** Helper: the light check touches only the time of the check, the outputs and the spoken texts. */
  lemma {:induction false} LightKeeps(e: State, stamp: real, status: Option<string>)
    ensures var r := LightStep(e, stamp, status);
      && r.window == e.window && r.coordinates == e.coordinates
      && r.counters == e.counters && r.count == e.count
      && r.lastLight == (if LightDue(e.lastLight, stamp) then Some(stamp) else e.lastLight)
  {
  }

  /** Helper: the light check after only `add` events keeps the account. */
  lemma {:induction false} LightAccounted(e0: State, e: State, stamp: real, status: Option<string>)
    requires Extends(e0, e) && (Spoken(e0) ==> Spoken(e))
    requires forall i :: |e0.outputs| <= i < |e.outputs| ==> e.outputs[i].Add?
    ensures var r := LightStep(e, stamp, status);
      Extends(e0, r) && ErrorsLast(e0, r) && (Spoken(e0) ==> Spoken(r))
  {
    if LightDue(e.lastLight, stamp) && status.Some? {
      RaiseAccounted(e0, e.(lastLight := Some(stamp)), status.value);
    }
  }

  /**
   * Outputs only grow and the spoken texts stay the error texts; an error
   * event is the last event of its frame and carries the counters as they
   * stand after the frame (so counts made before a failing light check are
   * kept).
   */
  lemma {:induction false} AdvanceSpeaks(e: State, stamp: real, status: Option<string>, o: Outcome)
    ensures var r := Advance(e, stamp, status, o);
      Extends(e, r) && ErrorsLast(e, r) && (Spoken(e) ==> Spoken(r))
  {
    var e1 := Enter(e, o);
    assert e1.outputs[..|e.outputs|] == e.outputs;
    if o.Raised? {
      RaiseAccounted(e, e1, o.message);
    } else {
      var c := Sense(e1, o);
      if o.Recognised? {
        ClassifiedAccounted(e1, o.raw, o.advise);
        assert c.outputs[..|e.outputs|] == e.outputs;
      }
      LightAccounted(e, c, stamp, status);
    }
  }

  /** The counters and every event put so far hold proper dictionaries. */
  predicate Healthy(e: State) {
    CountersKeyed(e.counters) && AllKeyed(e.outputs)
  }

  /** Helper: events with proper dictionaries, put one after another. */
  lemma {:induction false} AllKeyedAppend(a: seq<Event>, b: seq<Event>)
    requires AllKeyed(a) && AllKeyed(b)
    ensures AllKeyed(a + b)
  {
    forall i | 0 <= i < |a + b|
      ensures Keyed((a + b)[i].poseCounts) && Keyed((a + b)[i].setsCounts)
    {
      if i >= |a| {
        assert (a + b)[i] == b[i - |a|];
      }
    }
  }

  /** Helper: an error event carries the (proper) counters. */
  lemma {:induction false} RaiseKeyed(e: State, text: string)
    requires Healthy(e)
    ensures Healthy(Raise(e, text))
  {
    AllKeyedAppend(e.outputs, [Error(text, e.counters.poseCounts, e.counters.setsCounts)]);
  }

  /** Helper: counting a classified frame keeps the dictionaries proper. */
  lemma {:induction false} ClassifiedKeyed(e: State, raw: string, advise: string -> Option<string>)
    requires Healthy(e)
    ensures Healthy(Classified(e, raw, advise))
  {
    var pose := MostCommon(Slide(e.window, raw));
    TallyKeepsKeyed(e.counters, pose, advise(pose));
    TallyEventsKeyed(e.counters, pose, advise(pose));
    AllKeyedAppend(e.outputs, Tally(e.counters, pose, advise(pose)).1);
  }

  /**
   * Every frame keeps the counters proper dictionaries and puts only events
   * that carry proper dictionaries, so each event the report may later read
   * has one entry per key.
   */
  lemma {:induction false} AdvanceKeyed(e: State, stamp: real, status: Option<string>, o: Outcome)
    requires Healthy(e)
    ensures Healthy(Advance(e, stamp, status, o))
  {
    var e1 := Enter(e, o);
    if o.Raised? {
      RaiseKeyed(e1, o.message);
    } else {
      var c := Sense(e1, o);
      if o.Recognised? {
        ClassifiedKeyed(e1, o.raw, o.advise);
      }
      if LightDue(c.lastLight, stamp) && status.Some? {
        RaiseKeyed(c.(lastLight := Some(stamp)), status.value);
      }
    }
  }

  /** Helper: one frame raises the pose total by one exactly when it is classified. */
  lemma {:induction false} AdvanceCounts(e: State, stamp: real, status: Option<string>, o: Outcome)
    ensures var r := Advance(e, stamp, status, o);
      Total(r.counters.poseCounts) == Total(e.counters.poseCounts) + (if o.Recognised? then 1 else 0)
  {
    var e1 := Enter(e, o);
    if !o.Raised? {
      var c := Sense(e1, o);
      if o.Recognised? {
        var pose := MostCommon(Slide(e1.window, o.raw));
        PoseCountedOnce(e1.counters, pose, o.advise(pose));
      }
      LightKeeps(c, stamp, status);
    }
  }

  /**
   * The light check runs, and its time is recorded, exactly when it is due
   * and nothing before it raised; a failing check still records its time.
   */
  lemma {:induction false} LightThrottled(e: State, stamp: real, status: Option<string>, o: Outcome)
    ensures var r := Advance(e, stamp, status, o);
      && (!o.Raised? && LightDue(e.lastLight, stamp) ==> r.lastLight == Some(stamp))
      && (o.Raised? || !LightDue(e.lastLight, stamp) ==> r.lastLight == e.lastLight)
  {
    var e1 := Enter(e, o);
    if !o.Raised? {
      var c := Sense(e1, o);
      if o.Recognised? {
        ClassifiedAccounted(e1, o.raw, o.advise);
      }
      LightKeeps(c, stamp, status);
    }
  }

  /**
   * The two halves of perception: a frame without a pose is `NoPose`, a
   * failed gate raises its message with nothing held, and a classified frame
   * holds the snapshot of its joints with a label that is random or agrees
   * with the first model.
   */
  lemma PerceiveCases(t: Trig, m: Models, f: Frame)
    requires Sound(t) && WellFormed(f)
    ensures var o := Perceive(t, m, f);
      && (o.NoPose? <==> f.landmarks.None?)
      && (Observe(t, f).Err? <==> o.Raised? && o.held.None?)
      && (o.Raised? && o.held.None? ==> o.message in GateMessages)
      && (o.Recognised? ==>
            Joints(f) == Some(o.snapshot.body) && Gate(o.snapshot.body).None?
            && (o.raw == RandomLabel
                || StartsWith(o.raw, m.className(m.predictClass(FeatureVector(t, o.snapshot)).value))))
  {
    var o := Perceive(t, m, f);
    if o.Recognised? {
      ClassifiedLabelAgrees(m, FeatureVector(t, o.snapshot));
    }
  }

  // ---------------------------------------------------------------- properties of the loop

  /** Nothing after the kill signal is handled. */
  lemma {:induction false} ShutdownStops(t: Trig, m: Models, e: State, inputs: seq<Input>)
    requires Sound(t) && FramesWellFormed(inputs)
    ensures var n := |UntilShutdown(inputs)|;
      FramesWellFormed(inputs[..n]) && Run(t, m, e, inputs) == Run(t, m, e, inputs[..n])
    decreases |inputs|
  {
    var n := |UntilShutdown(inputs)|;
    if inputs != [] && !inputs[0].Shutdown? {
      assert FramesWellFormed(inputs[1..]);
      ShutdownStops(t, m, FrameStep(t, m, e, inputs[0].stamp, inputs[0].frame), inputs[1..]);
      assert UntilShutdown(inputs) == [inputs[0]] + UntilShutdown(inputs[1..]);
      assert inputs[..n][1..] == inputs[1..][..n - 1];
    }
  }

  /** Over a whole run the window never holds more than three labels, and one item is counted per frame before the kill signal. */
  lemma {:induction false} RunCountsItems(t: Trig, m: Models, e: State, inputs: seq<Input>)
    requires Sound(t) && FramesWellFormed(inputs) && |e.window| <= WindowSize
    ensures var r := Run(t, m, e, inputs);
      |r.window| <= WindowSize && r.count == e.count + |UntilShutdown(inputs)|
    decreases |inputs|
  {
    if inputs != [] && !inputs[0].Shutdown? {
      var f := inputs[0].frame;
      AdvanceFacts(e, inputs[0].stamp, LightCheck(f.grey), Perceive(t, m, f));
      assert FramesWellFormed(inputs[1..]);
      RunCountsItems(t, m, FrameStep(t, m, e, inputs[0].stamp, f), inputs[1..]);
      assert UntilShutdown(inputs) == [inputs[0]] + UntilShutdown(inputs[1..]);
    }
  }

  /** Over a whole run the pose counts sum to their start value plus the number of classified frames. */
  lemma {:induction false} RunCountsPoses(t: Trig, m: Models, e: State, inputs: seq<Input>)
    requires Sound(t) && FramesWellFormed(inputs)
    ensures Total(Run(t, m, e, inputs).counters.poseCounts) == Total(e.counters.poseCounts) + CountedFrames(t, m, inputs)
    decreases |inputs|
  {
    if inputs != [] && !inputs[0].Shutdown? {
      var f := inputs[0].frame;
      AdvanceCounts(e, inputs[0].stamp, LightCheck(f.grey), Perceive(t, m, f));
      assert FramesWellFormed(inputs[1..]);
      RunCountsPoses(t, m, FrameStep(t, m, e, inputs[0].stamp, f), inputs[1..]);
    }
  }

  /**
   * Over a whole run outputs are only appended, and the texts handed to the
   * speech worker stay exactly the texts of the error events put, in order.
   */
  lemma {:induction false} RunSpeaksErrors(t: Trig, m: Models, e: State, inputs: seq<Input>)
    requires Sound(t) && FramesWellFormed(inputs)
    ensures Extends(e, Run(t, m, e, inputs))
    ensures Spoken(e) ==> Spoken(Run(t, m, e, inputs))
    decreases |inputs|
  {
    if inputs == [] || inputs[0].Shutdown? {
      assert e.outputs[..|e.outputs|] == e.outputs;
    } else {
      var f := inputs[0].frame;
      var e' := FrameStep(t, m, e, inputs[0].stamp, f);
      AdvanceSpeaks(e, inputs[0].stamp, LightCheck(f.grey), Perceive(t, m, f));
      assert FramesWellFormed(inputs[1..]);
      RunSpeaksErrors(t, m, e', inputs[1..]);
      var r := Run(t, m, e', inputs[1..]);
      assert r.outputs[..|e.outputs|] == r.outputs[..|e'.outputs|][..|e.outputs|];
    }
  }

  /** Over a whole run the counters stay proper dictionaries, and so do those of every event put. */
  lemma {:induction false} RunKeyed(t: Trig, m: Models, e: State, inputs: seq<Input>)
    requires Sound(t) && FramesWellFormed(inputs) && Healthy(e)
    ensures Healthy(Run(t, m, e, inputs))
    decreases |inputs|
  {
    if inputs != [] && !inputs[0].Shutdown? {
      var f := inputs[0].frame;
      AdvanceKeyed(e, inputs[0].stamp, LightCheck(f.grey), Perceive(t, m, f));
      assert FramesWellFormed(inputs[1..]);
      RunKeyed(t, m, FrameStep(t, m, e, inputs[0].stamp, f), inputs[1..]);
    }
  }

  /** Every event a run from fresh counters puts carries proper dictionaries. */
  lemma FreshRunKeyed(t: Trig, m: Models, e: State, inputs: seq<Input>)
    requires Sound(t) && FramesWellFormed(inputs)
    requires e.counters == NoCounters && e.outputs == []
    ensures AllKeyed(Run(t, m, e, inputs).outputs)
  {
    assert Healthy(e);
    RunKeyed(t, m, e, inputs);
  }

  // ---------------------------------------------------------------- the engine object

  /** The engine object: its frame processor, the window and the time of the last light check. */
  class MainEngine {
    const fproc: FrameProcessor
    var clfWindow: seq<string>
    var lastLightcheck: Option<real>
    /** What the engine has put on its output queue. */
    var outputs: seq<Event>
    /** What the engine has handed to the speech worker. */
    var said: seq<string>

    /** `__init__`: a fresh frame processor, an empty window, no light check yet. */
    constructor()
      ensures fresh(fproc) && fproc.coordinates == None
      ensures clfWindow == [] && lastLightcheck == None && outputs == [] && said == []
    {
      fproc := new FrameProcessor();
      clfWindow := [];
      lastLightcheck := None;
      outputs := [];
      said := [];
    }

    /** The engine's state together with the loop's locals. */
    function View(k: Counters, count: nat): State
      reads this, fproc
    {
      State(clfWindow, lastLightcheck, fproc.coordinates, k, outputs, said, count)
    }

    /**
     * `main`: handle items until the kill signal, starting from fresh
     * counters; the loop's locals are returned.
     */
    method Serve(t: Trig, m: Models, inputs: seq<Input>) returns (count: nat, k: Counters)
      requires Sound(t) && FramesWellFormed(inputs)
      modifies this, fproc
      ensures View(k, count) == Run(t, m, old(View(NoCounters, 0)), inputs)
    {
      count := 0;
      k := NoCounters;
      var i := 0;
      while i < |inputs|
        invariant 0 <= i <= |inputs|
        invariant FramesWellFormed(inputs[i..])
        invariant Run(t, m, old(View(NoCounters, 0)), inputs) == Run(t, m, View(k, count), inputs[i..])
        decreases |inputs| - i
      {
        var item := inputs[i];
        if item.Shutdown? {
          break;
        }
        assert WellFormed(inputs[i..][0].frame);
        k, count := HandleFrame(t, m, item.stamp, item.frame, k, count);
        assert inputs[i..][1..] == inputs[i + 1..];
        i := i + 1;
      }
    }

    /** The loop body for one frame, `finally` included. */
    method HandleFrame(t: Trig, m: Models, stamp: real, f: Frame, k: Counters, count: nat)
      returns (k': Counters, count': nat)
      requires Sound(t) && WellFormed(f)
      modifies this, fproc
      ensures View(k', count') == FrameStep(t, m, old(View(k, count)), stamp, f)
    {
      ghost var e := View(k, count);
      ghost var o := Perceive(t, m, f);
      k', count' := k, count + 1;
      var feats := fproc.GetFrameFeatures(t, f);
      ghost var e1 := Enter(e, o);
      assert View(k, count') == e1;
      if feats.Err? {
        Fail(feats.message, k);
      } else if feats.value.None? {
        LightPhase(stamp, f.grey, k, count');
      } else {
        var clas := Classify(m, feats.value.value);
        if clas.Err? {
          Fail(clas.message, k);
        } else {
          k' := Smooth(t, clas.value, k);
          ghost var pose := MostCommon(Slide(e.window, o.raw));
          assert o.advise(pose) == Advice(t, o.snapshot, pose);
          assert View(k', count') == Sense(e1, o);
          LightPhase(stamp, f.grey, k', count');
        }
      }
    }

    /**
     * Lines 52-57 for a classified frame: the raw label enters the window,
     * which keeps its newest three, and the vote is counted with the
     * correction for the stored snapshot.
     */
    method Smooth(t: Trig, raw: string, k: Counters) returns (k': Counters)
      requires Sound(t) && fproc.coordinates.Some?
      modifies this
      ensures var pose := MostCommon(Slide(old(clfWindow), raw));
        && clfWindow == Slide(old(clfWindow), raw)
        && k' == Tally(k, pose, Advice(t, fproc.coordinates.value, pose)).0
        && outputs == old(outputs) + Tally(k, pose, Advice(t, fproc.coordinates.value, pose)).1
        && said == old(said) && lastLightcheck == old(lastLightcheck)
    {
      Push(raw);
      var pose := MostCommon(clfWindow);
      var correction := fproc.PoseCorrector(t, pose);
      k' := Count(k, pose, correction);
    }

    /** Lines 52-54: append the raw label and keep the newest three. */
    method Push(raw: string)
      modifies this
      ensures clfWindow == Slide(old(clfWindow), raw)
      ensures outputs == old(outputs) && said == old(said) && lastLightcheck == old(lastLightcheck)
    {
      clfWindow := clfWindow + [raw];
      if |clfWindow| > WindowSize {
        clfWindow := clfWindow[|clfWindow| - WindowSize..];
      }
    }

    /** Lines 76-79: the throttled light check, recording its time before the status is asserted. */
    method LightPhase(stamp: real, grey: seq<int>, k: Counters, count: nat)
      modifies this
      ensures View(k, count) == LightStep(old(View(k, count)), stamp, LightCheck(grey))
    {
      if LightDue(lastLightcheck, stamp) {
        var status := LightCheck(grey);
        lastLightcheck := Some(stamp);
        if status.Some? {
          Fail(status.value, k);
        }
      }
    }

    /** The `except` branch: put the error with the counters, and say it. */
    method Fail(text: string, k: Counters)
      modifies this
      ensures outputs == old(outputs) + [Error(text, k.poseCounts, k.setsCounts)]
      ensures said == old(said) + [text]
      ensures clfWindow == old(clfWindow) && lastLightcheck == old(lastLightcheck)
    {
      outputs := outputs + [Error(text, k.poseCounts, k.setsCounts)];
      said := said + [text];
    }

    /** Lines 58-73: count the pose, then a closed set or a planks fifth, putting an event for each. */
    method Count(k: Counters, pose: string, correction: Option<string>) returns (k': Counters)
      modifies this
      ensures k' == Tally(k, pose, correction).0
      ensures outputs == old(outputs) + Tally(k, pose, correction).1
      ensures said == old(said) && clfWindow == old(clfWindow) && lastLightcheck == old(lastLightcheck)
    {
      var ex := Exercise(pose);
      var poseCounts := Put(k.poseCounts, ex, Get(k.poseCounts, ex, 0) + 1);
      var setsCounts := k.setsCounts;
      var ongoing := k.ongoing;
      if ex != RandomExercise {
        if EndsWith(pose, "-end") && ongoing.Some? && ongoing.value == Replace(pose, "end", "start") {
          assert Closes(k.ongoing, pose);
          setsCounts := Put(setsCounts, ex, Get(setsCounts, ex, 0.0) + 1.0);
          outputs := outputs + [Add(ex, correction, setsCounts, poseCounts)];
        }
        if EndsWith(pose, "planks") {
          setsCounts := Put(setsCounts, ex, Get(setsCounts, ex, 0.0) + 0.2);
          outputs := outputs + [Add(PlanksExercise, correction, setsCounts, poseCounts)];
        }
        ongoing := Some(pose);
      }
      k' := Counters(poseCounts, setsCounts, ongoing);
    }
  }
}
