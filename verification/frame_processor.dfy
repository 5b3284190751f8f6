/**
 * The frame processor: from the landmarks MediaPipe found in a camera frame to
 * the 32-entry feature vector the classifier reads, the form-correction rules
 * applied to the last featurised frame, and the light check.
 *
 * MediaPipe itself (`_get_frame_landmarks`) and OpenCV's grey conversion are not
 * modelled: a `Frame` carries their results. A feature is `None` where numpy
 * would produce NaN or an infinity (an angle at a vertex that coincides with
 * one of its end points, a distance divided by a zero torso length).
 */
module FrameProcessing {

  import opened Wrappers
  import opened Geometry
  import opened Labels

  /** What one camera frame yields to this module. */
  datatype Frame = Frame(
    landmarks: Option<seq<Point>>,  // MediaPipe's pose landmarks, None when no pose was detected
    height: nat,                    // frame.shape[0]
    width: nat,                     // frame.shape[1]
    grey: seq<int>)                 // the grey levels cv2.cvtColor produces

  /** MediaPipe always reports its full landmark list. */
  const LandmarkCount: nat := 33

  predicate WellFormed(f: Frame) {
    f.landmarks.Some? ==> |f.landmarks.value| == LandmarkCount
  }

  /**
   * `PoseLandmark[name]` for the names of `point_names`, in that order: NOSE,
   * LEFT_SHOULDER, RIGHT_SHOULDER, LEFT_HIP, RIGHT_HIP, LEFT_ELBOW, RIGHT_ELBOW,
   * LEFT_WRIST, RIGHT_WRIST, LEFT_KNEE, RIGHT_KNEE, LEFT_ANKLE, RIGHT_ANKLE,
   * LEFT_FOOT_INDEX, RIGHT_FOOT_INDEX.
   */
  const PoseLandmark: seq<nat> := [0, 11, 12, 23, 24, 13, 14, 15, 16, 25, 26, 27, 28, 31, 32]

  const LeftHipIndex: nat := 23
  const RightHipIndex: nat := 24

  /** The fifteen joints of `point_names`, unpacked by name. */
  datatype Skeleton = Skeleton(
    nose: Point,
    lShoulder: Point, rShoulder: Point,
    lHip: Point, rHip: Point,
    lElbow: Point, rElbow: Point,
    lWrist: Point, rWrist: Point,
    lKnee: Point, rKnee: Point,
    lAnkle: Point, rAnkle: Point,
    lFoot: Point, rFoot: Point)

  function ToSkeleton(p: seq<Point>): Skeleton
    requires |p| == |PoseLandmark|
  {
    Skeleton(p[0], p[1], p[2], p[3], p[4], p[5], p[6], p[7], p[8], p[9], p[10], p[11], p[12], p[13], p[14])
  }

  /** `self.coordinates`: the joints of the last featurised frame and the points derived from them. */
  datatype Snapshot = Snapshot(body: Skeleton, neck: Point, torsoLen: real, midHips: Point, core: Point, ground: Point)

  /** The mid-hip point of the raw landmarks (line 63). */
  function HipCentre(lm: seq<Point>): Point
    requires |lm| == LandmarkCount
  {
    var l, r := lm[LeftHipIndex], lm[RightHipIndex];
    Point((l.x + r.x) * 0.5, (l.y + r.y) * 0.5, (l.visibility + r.visibility) * 0.5)
  }

  /** One landmark moved so that `mid` is the origin and scaled to pixels. */
  function Recentre(p: Point, mid: Point, h: nat, w: nat): Point {
    Point(Mul(p.x - mid.x, w as real), Mul(p.y - mid.y, h as real), p.visibility)
  }

  /** The fifteen joints, re-centred: what `_get_points_coordinates` returns. */
  function Recentred(lm: seq<Point>, h: nat, w: nat): (r: seq<Point>)
    requires |lm| == LandmarkCount
    ensures |r| == |PoseLandmark|
  {
    seq(|PoseLandmark|, i requires 0 <= i < |PoseLandmark| => Recentre(lm[PoseLandmark[i]], HipCentre(lm), h, w))
  }

  /**
   * Re-centring keeps every visibility, and the two re-centred hips are
   * symmetric about the origin, so the mid-hips point recomputed from them
   * (line 108) sits exactly at the origin.
   */
  lemma RecentredHipsCancel(lm: seq<Point>, h: nat, w: nat)
    requires |lm| == LandmarkCount
    ensures forall i :: 0 <= i < |PoseLandmark| ==> Recentred(lm, h, w)[i].visibility == lm[PoseLandmark[i]].visibility
    ensures var s := ToSkeleton(Recentred(lm, h, w));
      var mid := Scale(Add(s.lHip, s.rHip), 0.5);
      mid.x == 0.0 && mid.y == 0.0
  {
    var c := HipCentre(lm);
    var l, r := lm[LeftHipIndex], lm[RightHipIndex];
    MulAlgebra(l.x - c.x, r.x - c.x, w as real);
    MulAlgebra(l.y - c.y, r.y - c.y, h as real);
    assert (l.x - c.x) + (r.x - c.x) == 0.0;
    assert (l.y - c.y) + (r.y - c.y) == 0.0;
    MulSign(0.0, w as real);
    MulSign(0.0, h as real);
  }

  const FaceMissing: string := "Face not in frame"
  const ShouldersMissing: string := "Shoulders not in frame"
  const BodyMissing: string := "Body not in frame"
  const FeetMissing: string := "Feet not in frame"

  /** The four visibility gates, in the order they are asserted. */
  const GateMessages: seq<string> := [FaceMissing, ShouldersMissing, BodyMissing, FeetMissing]

  /** A joint counts as in frame when its visibility is strictly above 0.4. */
  predicate Seen(p: Point) {
    p.visibility > 0.4
  }

  /** Whether the body region guarded by gate `k` is in frame. */
  predicate RegionSeen(s: Skeleton, k: nat)
    requires k < |GateMessages|
  {
    match k
    case 0 => Seen(s.nose)
    case 1 => Seen(s.lShoulder) && Seen(s.rShoulder)
    case 2 => Seen(s.lHip) && Seen(s.rHip)
    case _ => Seen(s.lFoot) && Seen(s.rFoot)
  }

  /**
   * The assertions of lines 98-101: the message of the first failing gate, or
   * None when every gate passes.
   */
  function Gate(s: Skeleton): (r: Option<string>)
    ensures r.None? <==> forall k :: 0 <= k < |GateMessages| ==> RegionSeen(s, k)
    ensures r.Some? ==> exists k :: (0 <= k < |GateMessages| && r.value == GateMessages[k]
      && !RegionSeen(s, k) && forall j :: 0 <= j < k ==> RegionSeen(s, j))
  {
    if !(s.nose.visibility > 0.4) then
      assert !RegionSeen(s, 0);
      Some(FaceMissing)
    else if !(s.lShoulder.visibility > 0.4 && s.rShoulder.visibility > 0.4) then
      assert RegionSeen(s, 0) && !RegionSeen(s, 1);
      Some(ShouldersMissing)
    else if !(s.lHip.visibility > 0.4 && s.rHip.visibility > 0.4) then
      assert RegionSeen(s, 0) && RegionSeen(s, 1) && !RegionSeen(s, 2);
      Some(BodyMissing)
    else if !(s.lFoot.visibility > 0.4 && s.rFoot.visibility > 0.4) then
      assert RegionSeen(s, 0) && RegionSeen(s, 1) && RegionSeen(s, 2) && !RegionSeen(s, 3);
      Some(FeetMissing)
    else
      assert RegionSeen(s, 0) && RegionSeen(s, 1) && RegionSeen(s, 2) && RegionSeen(s, 3);
      None
  }

  /** The points derived from the joints (lines 104-109 and 138). */
  function MakeSnapshot(t: Trig, s: Skeleton, height: nat): (c: Snapshot)
    requires Sound(t)
    ensures c.body == s && c.torsoLen >= 0.0
    ensures c.neck.x == (s.lShoulder.x + s.rShoulder.x) / 2.0 && c.neck.y == (s.lShoulder.y + s.rShoulder.y) / 2.0
    ensures c.midHips.x == (s.lHip.x + s.rHip.x) / 2.0 && c.midHips.y == (s.lHip.y + s.rHip.y) / 2.0
    ensures c.torsoLen == (Distance(t, c.neck, s.lHip) + Distance(t, c.neck, s.rHip)) / 2.0
    ensures c.core.x == (c.neck.x + c.midHips.x) / 2.0 && c.core.y == (c.neck.y + c.midHips.y) / 2.0
    ensures c.ground == Point(c.core.x, height as real - 1.0, 0.9)
  {
    var neck := Scale(Add(s.lShoulder, s.rShoulder), 0.5);
    DistanceProperties(t, neck, s.lHip);
    DistanceProperties(t, neck, s.rHip);
    var torsoLen := (Distance(t, neck, s.lHip) + Distance(t, neck, s.rHip)) * 0.5;
    var midHips := Scale(Add(s.lHip, s.rHip), 0.5);
    var core := Scale(Add(neck, midHips), 0.5);
    Snapshot(s, neck, torsoLen, midHips, core, Point(core.x, height as real - 1.0, 0.9))
  }

  /** On re-centred joints, the snapshot's mid-hips is the origin. */
  lemma SnapshotHipsAtOrigin(t: Trig, lm: seq<Point>, h: nat, w: nat, height: nat)
    requires Sound(t) && |lm| == LandmarkCount
    ensures var c := MakeSnapshot(t, ToSkeleton(Recentred(lm, h, w)), height);
      c.midHips.x == 0.0 && c.midHips.y == 0.0
  {
    RecentredHipsCancel(lm, h, w);
  }

  /** Every named point the feature vector refers to. */
  datatype Joint =
    | Nose | LeftShoulder | RightShoulder | LeftHip | RightHip | LeftElbow | RightElbow
    | LeftWrist | RightWrist | LeftKnee | RightKnee | LeftAnkle | RightAnkle
    | LeftFootIndex | RightFootIndex | Neck | MidHips | Core | Ground

  function At(c: Snapshot, j: Joint): Point {
    var s := c.body;
    match j
    case Nose => s.nose
    case LeftShoulder => s.lShoulder
    case RightShoulder => s.rShoulder
    case LeftHip => s.lHip
    case RightHip => s.rHip
    case LeftElbow => s.lElbow
    case RightElbow => s.rElbow
    case LeftWrist => s.lWrist
    case RightWrist => s.rWrist
    case LeftKnee => s.lKnee
    case RightKnee => s.rKnee
    case LeftAnkle => s.lAnkle
    case RightAnkle => s.rAnkle
    case LeftFootIndex => s.lFoot
    case RightFootIndex => s.rFoot
    case Neck => c.neck
    case MidHips => c.midHips
    case Core => c.core
    case Ground => c.ground
  }

  /** The joint pairs of the 24 distance features, in feature order. */
  const DistancePairs: seq<(Joint, Joint)> := [
    (Core, Nose), (Core, LeftElbow), (Core, RightElbow), (Core, LeftWrist), (Core, RightWrist),
    (Core, LeftKnee), (Core, RightKnee), (Core, LeftAnkle), (Core, RightAnkle),
    (LeftShoulder, LeftWrist), (RightShoulder, RightWrist), (LeftHip, LeftElbow), (RightHip, RightElbow),
    (LeftShoulder, LeftKnee), (RightShoulder, RightKnee), (LeftHip, LeftAnkle), (RightHip, RightAnkle),
    (LeftKnee, LeftFootIndex), (RightKnee, RightFootIndex),
    (LeftWrist, RightWrist), (LeftElbow, RightElbow), (LeftShoulder, RightShoulder), (LeftHip, RightHip),
    (LeftKnee, RightKnee)]

  /** The (end, vertex, end) triples of the 4 angle features. */
  const AngleTriples: seq<(Joint, Joint, Joint)> := [
    (LeftElbow, Neck, RightElbow), (LeftKnee, MidHips, RightKnee), (Nose, Neck, MidHips), (Nose, Core, Ground)]

  /** The joint pairs whose visibilities are averaged in the last 4 features. */
  const VisibilityPairs: seq<(Joint, Joint)> := [
    (LeftShoulder, LeftHip), (LeftHip, LeftKnee), (RightShoulder, RightHip), (RightHip, RightKnee)]

  /** One feature: a number, or None for numpy's NaN and infinities. */
  type Feature = Option<real>

  /** `x / d` in numpy: not a finite number when `d` is zero. */
  function Quotient(x: real, d: real): Feature {
    if d == 0.0 then None else Some(x / d)
  }

  /** `angle / 360.0`, NaN staying NaN. */
  function PerTurn(a: Option<real>): Feature {
    if a.None? then None else Some(a.value / 360.0)
  }

  function DistanceFeature(t: Trig, c: Snapshot, pair: (Joint, Joint)): Feature {
    Quotient(Distance(t, At(c, pair.0), At(c, pair.1)), c.torsoLen)
  }

  function AngleFeature(t: Trig, c: Snapshot, triple: (Joint, Joint, Joint)): Feature
    requires Sound(t)
  {
    PerTurn(Angle(t, At(c, triple.0), At(c, triple.1), At(c, triple.2)))
  }

  function VisibilityFeature(c: Snapshot, pair: (Joint, Joint)): Feature {
    Some((At(c, pair.0).visibility + At(c, pair.1).visibility) * 0.5)
  }

  /**
   * `np.hstack((dist_feats, angle_feats, visibility_feats))` (lines 112-155):
   * the distances in the order of `DistancePairs` divided by the torso length,
   * then the angles of `AngleTriples` divided by 360, then the visibility blends.
   */
  function FeatureVector(t: Trig, c: Snapshot): (r: seq<Feature>)
    requires Sound(t)
    ensures |r| == |DistancePairs| + |AngleTriples| + |VisibilityPairs| == 32
  {
    seq(|DistancePairs|, i requires 0 <= i < |DistancePairs| => DistanceFeature(t, c, DistancePairs[i]))
      + seq(|AngleTriples|, j requires 0 <= j < |AngleTriples| => AngleFeature(t, c, AngleTriples[j]))
      + seq(|VisibilityPairs|, k requires 0 <= k < |VisibilityPairs| => VisibilityFeature(c, VisibilityPairs[k]))
  }

  /** Helper: a non-negative number over a positive one. */
  lemma QuotientNonNeg(x: real, d: real)
    requires x >= 0.0 && d > 0.0
    ensures x / d >= 0.0
  {
  }

  /**
   * What the features of a snapshot are worth: distance features are never
   * negative, angle features lie in [0, 1), and once the gates have passed the
   * two shoulder-and-hip blends are above 0.4.
   */
  lemma FeatureRanges(t: Trig, c: Snapshot)
    requires Sound(t) && c.torsoLen >= 0.0
    ensures var r := FeatureVector(t, c);
      && (forall i :: 0 <= i < 24 && r[i].Some? ==> r[i].value >= 0.0)
      && (forall i :: 24 <= i < 28 && r[i].Some? ==> 0.0 <= r[i].value < 1.0)
      && (Gate(c.body).None? ==> r[28].value > 0.4 && r[30].value > 0.4)
  {
    var r := FeatureVector(t, c);
    forall i | 0 <= i < 24 && r[i].Some? ensures r[i].value >= 0.0 {
      var pair := DistancePairs[i];
      DistanceProperties(t, At(c, pair.0), At(c, pair.1));
      QuotientNonNeg(Distance(t, At(c, pair.0), At(c, pair.1)), c.torsoLen);
    }
    assert Gate(c.body).None? ==> RegionSeen(c.body, 1) && RegionSeen(c.body, 2);
  }

  /** Which vertices of the angle features must not coincide with an end point. */
  predicate AnglesDefined(c: Snapshot) {
    forall j :: 0 <= j < |AngleTriples| ==>
      NonDegenerate(At(c, AngleTriples[j].0), At(c, AngleTriples[j].1), At(c, AngleTriples[j].2))
  }

  /** Every feature is a finite number exactly when the torso has length and no angle is degenerate. */
  lemma FeaturesFinite(t: Trig, c: Snapshot)
    requires Sound(t)
    ensures (forall i :: 0 <= i < 32 ==> FeatureVector(t, c)[i].Some?) <==> c.torsoLen != 0.0 && AnglesDefined(c)
  {
    var r := FeatureVector(t, c);
    assert r[0] == DistanceFeature(t, c, DistancePairs[0]);
    if c.torsoLen != 0.0 && AnglesDefined(c) {
      forall i | 0 <= i < 32 ensures r[i].Some? {
        if 24 <= i < 28 {
          var tr := AngleTriples[i - 24];
          assert NonDegenerate(At(c, tr.0), At(c, tr.1), At(c, tr.2));
        }
      }
    } else if c.torsoLen != 0.0 {
      var j :| 0 <= j < |AngleTriples| && !NonDegenerate(At(c, AngleTriples[j].0), At(c, AngleTriples[j].1), At(c, AngleTriples[j].2));
      assert r[24 + j].None?;
    }
  }

  /** The joints of a frame, or None when MediaPipe found no pose. */
  function Joints(f: Frame): Option<Skeleton>
    requires WellFormed(f)
  {
    if f.landmarks.None? then None
    else Some(ToSkeleton(Recentred(f.landmarks.value, f.height, f.width)))
  }

  /**
   * What featurising a frame leaves in `self.coordinates`: None when no pose
   * was found, the failed gate's message as an error, the snapshot otherwise.
   */
  function Observe(t: Trig, f: Frame): (r: Result<Option<Snapshot>>)
    requires Sound(t) && WellFormed(f)
    ensures r.Err? <==> Joints(f).Some? && Gate(Joints(f).value).Some?
    ensures r.Err? ==> r.message in GateMessages
    ensures r == Ok(None) <==> f.landmarks.None?
    ensures r.Ok? && r.value.Some? ==> r.value.value.body == Joints(f).value && Gate(r.value.value.body).None?
  {
    match Joints(f)
    case None => Ok(None)
    case Some(s) =>
      match Gate(s)
      case Some(msg) => Err(msg)
      case None => Ok(Some(MakeSnapshot(t, s, f.height)))
  }

  /** `" ".join(feedback)` */
  function Join(msgs: seq<string>): (r: string)
    ensures |msgs| > 0 ==> StartsWith(r, msgs[0]) && EndsWith(r, msgs[|msgs| - 1])
    ensures |msgs| == 1 ==> r == msgs[0]
  {
    if |msgs| == 0 then ""
    else if |msgs| == 1 then msgs[0]
    else msgs[0] + " " + Join(msgs[1..])
  }

  /** Joining two non-empty runs of messages puts exactly one space between them. */
  lemma {:induction false} JoinAppend(a: seq<string>, b: seq<string>)
    requires |a| > 0 && |b| > 0
    ensures Join(a + b) == Join(a) + " " + Join(b)
    decreases |a|
  {
    if |a| == 1 {
      assert (a + b)[1..] == b;
    } else {
      assert (a + b)[1..] == a[1..] + b;
      JoinAppend(a[1..], b);
    }
  }

  /** `min(a, 360 - a)` of an angle. */
  function Folded(t: Trig, p1: Point, p2: Point, p3: Point): (r: Option<real>)
    requires Sound(t)
    ensures r.Some? ==> 0.0 <= r.value <= 180.0
  {
    Fold(Angle(t, p1, p2, p3))
  }

  const JumpingJacksFeetClose: string := "Your feet are too close when starting Jumping Jacks."
  const JumpingJacksFeetWide: string := "Your feet are too wide when starting Jumping Jacks."
  const JumpingJacksArms: string := "Keep your arms straight while doing Jumping Jacks."
  const JumpingJacksArmsUp: string := "Keep your arms above your head when ending Jumping Jacks."
  const JumpingJacksEndClose: string := "Your feet are too close when ending Jumping Jacks."
  const JumpingJacksEndWide: string := "Your feet are too wide when ending Jumping Jacks."
  const CrunchesRelaxed: string := "Lie down in a relaxed way while starting crunches."
  const CrunchesHead: string := "Raise your head slightly from neck while ending crunches."
  const LungesCore: string := "Keep your core straight while doing lunges."
  const LungesKnees: string := "While doing lunges your knees should be at right angles."
  const PlanksUpper: string := "Straighten your upper body while doing planks."
  const PlanksLower: string := "Straighten your lower body while doing planks."
  const SquatsKnees: string := "While doing squats your knees should not cross your toes."

  /** `[msg] if cond else []` */
  function When(cond: bool, msg: string): seq<string> {
    if cond then [msg] else []
  }

  /** Lines 179-191. The arms check asks for an angle below 120 and above 180 at once. */
  function JumpingJacksStart(t: Trig, s: Skeleton, feet: real, shoulders: real): seq<string>
    requires Sound(t)
  {
    var leftHand := Folded(t, s.lShoulder, s.lElbow, s.lWrist);
    var rightHand := Folded(t, s.rShoulder, s.rElbow, s.rWrist);
    When(feet <= shoulders * 0.85, JumpingJacksFeetClose)
      + When(feet > 2.0 * shoulders, JumpingJacksFeetWide)
      + When((Lt(leftHand, 120.0) && Gt(leftHand, 180.0)) || (Lt(rightHand, 120.0) && Gt(rightHand, 180.0)), JumpingJacksArms)
  }

  /** Lines 193-200. */
  function JumpingJacksEnd(s: Skeleton, feet: real, shoulders: real): seq<string> {
    When(!(s.nose.y > s.lWrist.y && s.nose.y > s.rWrist.y), JumpingJacksArmsUp)
      + When(feet <= 1.5 * shoulders, JumpingJacksEndClose)
      + When(feet > 2.75 * shoulders, JumpingJacksEndWide)
  }

  /** Lines 174-200. */
  function JumpingJacks(t: Trig, s: Skeleton, pose: string): seq<string>
    requires Sound(t)
  {
    var feet := Distance(t, s.lAnkle, s.rAnkle);
    var shoulders := Distance(t, s.lShoulder, s.rShoulder);
    (if pose == "jumping_jacks-start" then JumpingJacksStart(t, s, feet, shoulders) else [])
      + (if pose == "jumping_jacks-end" then JumpingJacksEnd(s, feet, shoulders) else [])
  }

  /** Lines 203-214. */
  function Crunches(t: Trig, c: Snapshot, pose: string): seq<string>
    requires Sound(t)
  {
    var start := Folded(t, c.neck, c.core, c.midHips);
    var end := Folded(t, c.body.nose, c.core, c.midHips);
    When(pose == "crunches-start" && (Gt(start, 190.0) || Lt(start, 170.0)), CrunchesRelaxed)
      + When(pose == "crunches-end" && (Lt(end, 120.0) || Gt(end, 160.0)), CrunchesHead)
  }

  /** Lines 217-231. */
  function Lunges(t: Trig, c: Snapshot, pose: string): seq<string>
    requires Sound(t)
  {
    var s := c.body;
    var body := Folded(t, c.neck, c.core, c.midHips);
    var leftLeg := Folded(t, s.lAnkle, s.lKnee, s.lHip);
    var rightLeg := Folded(t, s.rAnkle, s.rKnee, s.rHip);
    When(Gt(body, 190.0) || Lt(body, 170.0), LungesCore)
      + When(pose == "lunges-end"
          && ((Gt(leftLeg, 100.0) || Lt(leftLeg, 80.0)) || (Gt(rightLeg, 100.0) || Lt(rightLeg, 80.0))), LungesKnees)
  }

  /** Lines 236-245. Both checks ask for an angle below 165 and above 190 at once. */
  function Planks(t: Trig, c: Snapshot): seq<string>
    requires Sound(t)
  {
    var s := c.body;
    var upper := Folded(t, c.neck, c.core, c.midHips);
    var midKnees := Scale(Add(s.lKnee, s.rKnee), 0.5);
    var midAnkle := Scale(Add(s.lAnkle, s.rAnkle), 0.5);
    var lower := Folded(t, c.midHips, midKnees, midAnkle);
    When(Lt(upper, 165.0) && Gt(upper, 190.0), PlanksUpper)
      + When(Lt(lower, 165.0) && Gt(lower, 190.0), PlanksLower)
  }

  /** How far the toes are ahead of the knee, on the side the user faces (lines 252-256). */
  function ToeLead(s: Skeleton): real {
    if s.rKnee.x - s.rHip.x >= 0.0 then s.rFoot.x - s.rKnee.x else s.lKnee.x - s.lFoot.x
  }

  /** Lines 248-258. */
  function Squats(s: Skeleton, pose: string): seq<string> {
    When(pose == "squats-end" && ToeLead(s) <= 0.0, SquatsKnees)
  }

  /**
   * The messages `pose_corrector` collects for a pose, in check order. The
   * first exercise name the pose starts with selects the rules; any other
   * pose gets none.
   */
  function Corrections(t: Trig, c: Snapshot, pose: string): (r: seq<string>)
    requires Sound(t)
    ensures |r| <= 3
  {
    var s := c.body;
    if StartsWith(pose, "jumping_jacks") then JumpingJacks(t, s, pose)
    else if StartsWith(pose, "crunches") then Crunches(t, c, pose)
    else if StartsWith(pose, "lunges") then Lunges(t, c, pose)
    else if StartsWith(pose, "planks") then Planks(t, c)
    else if StartsWith(pose, "squats") then Squats(s, pose)
    else []
  }

  /** The arms-straight check of jumping jacks can never fire. */
  lemma ArmsCheckNeverFires(t: Trig, s: Skeleton, feet: real, shoulders: real)
    requires Sound(t)
    ensures JumpingJacksArms !in JumpingJacksStart(t, s, feet, shoulders)
  {
  }

  /** Neither planks straightness check can fire: a plank is never corrected. */
  lemma PlanksNeverCorrected(t: Trig, c: Snapshot, pose: string)
    requires Sound(t) && StartsWith(pose, "planks")
    ensures Corrections(t, c, pose) == []
  {
    assert pose[0] == 'p';
  }

  /**
   * Starting jumping jacks draws at most one message: the feet cannot be both
   * closer than 0.85 and wider than 2 shoulder widths, and the arms check never fires.
   */
  lemma JumpingJacksStartAtMostOne(t: Trig, c: Snapshot)
    requires Sound(t)
    ensures |Corrections(t, c, "jumping_jacks-start")| <= 1
  {
    var s := c.body;
    DistanceProperties(t, s.lShoulder, s.rShoulder);
    assert StartsWith("jumping_jacks-start", "jumping_jacks");
  }

  /** A folded angle is at most 180, so "above 190 or below 170" means "below 170". */
  lemma StraightnessTest(a: Option<real>)
    requires a.Some? ==> 0.0 <= a.value <= 180.0
    ensures (Gt(a, 190.0) || Lt(a, 170.0)) <==> Lt(a, 170.0)
  {
  }

  /**
   * The core lies halfway between neck and mid-hips, so the angle the
   * crunches-start and lunges checks measure there is 180 (or NaN): neither
   * check fires on a snapshot the frame processor built.
   */
  lemma CoreChecksNeverFire(t: Trig, s: Skeleton, height: nat, pose: string)
    requires Sound(t)
    ensures CrunchesRelaxed !in Crunches(t, MakeSnapshot(t, s, height), pose)
    ensures LungesCore !in Lunges(t, MakeSnapshot(t, s, height), pose)
  {
    var c := MakeSnapshot(t, s, height);
    MidpointAngle(t, c.neck, c.midHips);
    assert c.core == Scale(Add(c.neck, c.midHips), 0.5);
    assert |CrunchesHead| != |CrunchesRelaxed|;
    assert |LungesKnees| != |LungesCore|;
  }

  /**
   * Ending a squat is corrected exactly when the knee has reached or passed the
   * toes on the side the user faces.
   */
  lemma SquatsEndWarning(t: Trig, c: Snapshot)
    requires Sound(t)
    ensures var s := c.body;
      Corrections(t, c, "squats-end") == (if (if s.rKnee.x >= s.rHip.x then s.rKnee.x >= s.rFoot.x else s.lFoot.x >= s.lKnee.x)
        then [SquatsKnees] else [])
  {
    assert StartsWith("squats-end", "squats");
    FirstCharDiffers("squats-end", "jumping_jacks");
    FirstCharDiffers("squats-end", "crunches");
    FirstCharDiffers("squats-end", "lunges");
    FirstCharDiffers("squats-end", "planks");
  }

  /** A pose of no trained exercise, "random-random" included, is never corrected. */
  lemma OtherLabelsUncorrected(t: Trig, c: Snapshot)
    requires Sound(t)
    ensures Corrections(t, c, RandomLabel) == []
  {
    assert RandomLabel[0] == 'r';
  }

  /** Grey levels at or below this are dark. */
  const DarkLevel: int := 30
  /** Grey levels at or above this are bright. */
  const BrightLevel: int := 225

  /** `np.sum(grey <= level)` */
  function CountAtMost(grey: seq<int>, level: int): nat {
    if grey == [] then 0
    else CountAtMost(grey[..|grey| - 1], level) + (if grey[|grey| - 1] <= level then 1 else 0)
  }

  /** `np.sum(grey >= level)` */
  function CountAtLeast(grey: seq<int>, level: int): nat {
    if grey == [] then 0
    else CountAtLeast(grey[..|grey| - 1], level) + (if grey[|grey| - 1] >= level then 1 else 0)
  }

  /** The positions of the pixels at or below `level`. */
  ghost function DarkSet(grey: seq<int>, level: int): set<nat> {
    set i: nat | i < |grey| && grey[i] <= level
  }

  /** The positions of the pixels at or above `level`. */
  ghost function BrightSet(grey: seq<int>, level: int): set<nat> {
    set i: nat | i < |grey| && grey[i] >= level
  }

  /** The recursive count of dark pixels is the number of such pixels. */
  lemma {:induction false} DarkCountIsSize(grey: seq<int>, level: int)
    ensures CountAtMost(grey, level) == |DarkSet(grey, level)|
  {
    if grey != [] {
      var n := |grey| - 1;
      var before := grey[..n];
      DarkCountIsSize(before, level);
      assert forall i :: 0 <= i < n ==> before[i] == grey[i];
      assert DarkSet(grey, level) == DarkSet(before, level) + (if grey[n] <= level then {n} else {});
    }
  }

  /** The recursive count of bright pixels is the number of such pixels. */
  lemma {:induction false} BrightCountIsSize(grey: seq<int>, level: int)
    ensures CountAtLeast(grey, level) == |BrightSet(grey, level)|
  {
    if grey != [] {
      var n := |grey| - 1;
      var before := grey[..n];
      BrightCountIsSize(before, level);
      assert forall i :: 0 <= i < n ==> before[i] == grey[i];
      assert BrightSet(grey, level) == BrightSet(before, level) + (if grey[n] >= level then {n} else {});
    }
  }

  const TooDark: string := "Please come to a lighted area."
  const TooBright: string := "Your screen is overexposed. Please adjust."

  /**
   * `lightcheck`: more than 30% of the pixels dark asks for light, otherwise
   * more than 30% bright reports overexposure. The fraction test
   * `n / total > 0.3` is taken in exact arithmetic as `10 * n > 3 * total`; an
   * empty image (0 / 0 is NaN in numpy) reports nothing.
   */
  function LightCheck(grey: seq<int>): (r: Option<string>)
    ensures r == Some(TooDark) <==> 10 * |DarkSet(grey, DarkLevel)| > 3 * |grey|
    ensures r == Some(TooBright) <==>
      10 * |DarkSet(grey, DarkLevel)| <= 3 * |grey| && 10 * |BrightSet(grey, BrightLevel)| > 3 * |grey|
    ensures r.None? <==>
      10 * |DarkSet(grey, DarkLevel)| <= 3 * |grey| && 10 * |BrightSet(grey, BrightLevel)| <= 3 * |grey|
  {
    DarkCountIsSize(grey, DarkLevel);
    BrightCountIsSize(grey, BrightLevel);
    var total := |grey|;
    if 10 * CountAtMost(grey, DarkLevel) > 3 * total then Some(TooDark)
    else if 10 * CountAtLeast(grey, BrightLevel) > 3 * total then Some(TooBright)
    else None
  }

  /** The frame processor object: it remembers the snapshot of the last featurised frame. */
  class FrameProcessor {
    var coordinates: Option<Snapshot>

    /** `self.coordinates` starts out empty. */
    constructor()
      ensures coordinates == None
    {
      coordinates := None;
    }

    /** `_get_points_coordinates`: the fifteen joints re-centred on the mid-hip, built one by one. */
    method GetPointsCoordinates(lm: seq<Point>, h: nat, w: nat) returns (points: seq<Point>)
      requires |lm| == LandmarkCount
      ensures points == Recentred(lm, h, w)
    {
      var l, r := lm[LeftHipIndex], lm[RightHipIndex];
      var mid := Point((l.x + r.x) * 0.5, (l.y + r.y) * 0.5, (l.visibility + r.visibility) * 0.5);
      points := [];
      for i := 0 to |PoseLandmark|
        invariant |points| == i
        invariant forall k :: 0 <= k < i ==> points[k] == Recentre(lm[PoseLandmark[k]], HipCentre(lm), h, w)
      {
        var p := lm[PoseLandmark[i]];
        points := points + [Point(Mul(p.x - mid.x, w as real), Mul(p.y - mid.y, h as real), p.visibility)];
      }
    }

    /**
     * `get_frame_features`: None when no pose was found, the failed gate's
     * message when a gate fails, the feature vector otherwise; `coordinates`
     * is cleared first and set only on success.
     */
    method GetFrameFeatures(t: Trig, f: Frame) returns (r: Result<Option<seq<Feature>>>)
      requires Sound(t) && WellFormed(f)
      modifies this
      ensures match Observe(t, f)
        case Err(msg) => r == Err(msg) && coordinates == None
        case Ok(None) => r == Ok(None) && coordinates == None
        case Ok(Some(c)) => r == Ok(Some(FeatureVector(t, c))) && coordinates == Some(c)
    {
      coordinates := None;
      if f.landmarks.None? {
        return Ok(None);
      }
      var points := GetPointsCoordinates(f.landmarks.value, f.height, f.width);
      var s := ToSkeleton(points);
      var gate := Gate(s);
      if gate.Some? {
        return Err(gate.value);
      }
      var c := MakeSnapshot(t, s, f.height);
      r := Ok(Some(FeatureVector(t, c)));
      coordinates := Some(c);
    }

    /**
     * `pose_corrector`: the messages of the checks that fire for `pose` on the
     * stored snapshot, joined by single spaces; None when nothing is stored or
     * nothing fires. Each exercise's checks append to the feedback in turn.
     */
    method PoseCorrector(t: Trig, pose: string) returns (r: Option<string>)
      requires Sound(t)
      ensures coordinates.None? ==> r.None?
      ensures coordinates.Some? ==> var msgs := Corrections(t, coordinates.value, pose);
        r == if msgs == [] then None else Some(Join(msgs))
    {
      var feedback: seq<string> := [];
      if coordinates.Some? {
        var c := coordinates.value;
        if StartsWith(pose, "jumping_jacks") {
          feedback := CheckJumpingJacks(t, c.body, pose);
        } else if StartsWith(pose, "crunches") {
          feedback := CheckCrunches(t, c, pose);
        } else if StartsWith(pose, "lunges") {
          feedback := CheckLunges(t, c, pose);
        } else if StartsWith(pose, "planks") {
          feedback := CheckPlanks(t, c);
        } else if StartsWith(pose, "squats") {
          feedback := CheckSquats(c.body, pose);
        }
      }
      r := if |feedback| > 0 then Some(Join(feedback)) else None;
    }
  }

  /** The jumping-jacks checks of `pose_corrector`, in order. */
  method CheckJumpingJacks(t: Trig, s: Skeleton, pose: string) returns (feedback: seq<string>)
    requires Sound(t)
    ensures feedback == JumpingJacks(t, s, pose)
  {
    feedback := [];
    var feet := Distance(t, s.lAnkle, s.rAnkle);
    var shoulders := Distance(t, s.lShoulder, s.rShoulder);
    if pose == "jumping_jacks-start" {
      var leftHand := Folded(t, s.lShoulder, s.lElbow, s.lWrist);
      var rightHand := Folded(t, s.rShoulder, s.rElbow, s.rWrist);
      if feet <= shoulders * 0.85 {
        feedback := feedback + [JumpingJacksFeetClose];
      }
      if feet > 2.0 * shoulders {
        feedback := feedback + [JumpingJacksFeetWide];
      }
      if (Lt(leftHand, 120.0) && Gt(leftHand, 180.0)) || (Lt(rightHand, 120.0) && Gt(rightHand, 180.0)) {
        feedback := feedback + [JumpingJacksArms];
      }
    }
    ghost var started := feedback;
    assert started == if pose == "jumping_jacks-start" then JumpingJacksStart(t, s, feet, shoulders) else [];
    if pose == "jumping_jacks-end" {
      if !(s.nose.y > s.lWrist.y && s.nose.y > s.rWrist.y) {
        feedback := feedback + [JumpingJacksArmsUp];
      }
      if feet <= 1.5 * shoulders {
        feedback := feedback + [JumpingJacksEndClose];
      }
      if feet > 2.75 * shoulders {
        feedback := feedback + [JumpingJacksEndWide];
      }
    }
    assert feedback == started + if pose == "jumping_jacks-end" then JumpingJacksEnd(s, feet, shoulders) else [];
  }

  /** The crunches checks of `pose_corrector`, in order. */
  method CheckCrunches(t: Trig, c: Snapshot, pose: string) returns (feedback: seq<string>)
    requires Sound(t)
    ensures feedback == Crunches(t, c, pose)
  {
    feedback := [];
    if pose == "crunches-start" {
      var body := Folded(t, c.neck, c.core, c.midHips);
      if Gt(body, 190.0) || Lt(body, 170.0) {
        feedback := feedback + [CrunchesRelaxed];
      }
    }
    if pose == "crunches-end" {
      var body := Folded(t, c.body.nose, c.core, c.midHips);
      if Lt(body, 120.0) || Gt(body, 160.0) {
        feedback := feedback + [CrunchesHead];
      }
    }
  }

  /** The lunges checks of `pose_corrector`, in order. */
  method CheckLunges(t: Trig, c: Snapshot, pose: string) returns (feedback: seq<string>)
    requires Sound(t)
    ensures feedback == Lunges(t, c, pose)
  {
    feedback := [];
    var s := c.body;
    var body := Folded(t, c.neck, c.core, c.midHips);
    if Gt(body, 190.0) || Lt(body, 170.0) {
      feedback := feedback + [LungesCore];
    }
    if pose == "lunges-end" {
      var leftLeg := Folded(t, s.lAnkle, s.lKnee, s.lHip);
      var rightLeg := Folded(t, s.rAnkle, s.rKnee, s.rHip);
      if (Gt(leftLeg, 100.0) || Lt(leftLeg, 80.0)) || (Gt(rightLeg, 100.0) || Lt(rightLeg, 80.0)) {
        feedback := feedback + [LungesKnees];
      }
    }
  }

  /** The planks checks of `pose_corrector`, in order. */
  method CheckPlanks(t: Trig, c: Snapshot) returns (feedback: seq<string>)
    requires Sound(t)
    ensures feedback == Planks(t, c)
  {
    feedback := [];
    var s := c.body;
    var upper := Folded(t, c.neck, c.core, c.midHips);
    var midKnees := Scale(Add(s.lKnee, s.rKnee), 0.5);
    var midAnkle := Scale(Add(s.lAnkle, s.rAnkle), 0.5);
    var lower := Folded(t, c.midHips, midKnees, midAnkle);
    if Lt(upper, 165.0) && Gt(upper, 190.0) {
      feedback := feedback + [PlanksUpper];
    }
    if Lt(lower, 165.0) && Gt(lower, 190.0) {
      feedback := feedback + [PlanksLower];
    }
  }

  /** The squats check of `pose_corrector`. */
  method CheckSquats(s: Skeleton, pose: string) returns (feedback: seq<string>)
    ensures feedback == Squats(s, pose)
  {
    feedback := [];
    if pose == "squats-end" {
      var dist := if s.rKnee.x - s.rHip.x >= 0.0 then s.rFoot.x - s.rKnee.x else s.lKnee.x - s.lFoot.x;
      if dist <= 0.0 {
        feedback := feedback + [SquatsKnees];
      }
    }
  }
}
