/**
 * One iteration of the `ProcessBones` capture loop as a pure step function:
 * loop state, calibration record and frame outcome in; new loop state, new
 * calibration record and the trace of tracker, publish and release events
 * out.
 */
module Tracking {
  import opened Vectors
  import opened Skeletons
  import opened DriverPoses
  import opened Calibration
  import opened Wrappers

  /** Nominal seconds between frames used for finite-difference velocity. */
  const VelocityWindow: real := 0.08
  /** Extra gain on elbow velocities. */
  const ElbowVelocityGain: real := 1.2
  /** Fraction of the remaining distance to 1 the smoothing ramp covers per frame. */
  const RampRate: real := 0.45
  /** The motion baseline keeps maxChange - maxChange * 0.98 of itself. */
  const BaselineDecay: real := 0.98
  /** Millimetres to metres for a single joint. */
  const SingleJointScale: real := 1000.0
  /** Millimetres to metres, averaged over two joints. */
  const JointPairScale: real := 2000.0

  /**
   * State the loop carries across iterations: its own copies of the eight
   * poses, the auto-smoothing ramp, the motion baseline `maxChange`, the
   * motion of the last tracked frame `vectorChange`, and whether no body
   * has been seen yet.
   */
  datatype LoopState = LoopState(
    poses: PerBone<DriverPose>,
    smoothing: real,
    maxChange: real,
    vectorChange: real,
    firstRun: bool)

  /** The ramp stays in [0, 1] and the baseline stays positive, so the ratio is defined. */
  predicate Invariant(s: LoopState) {
    0.0 <= s.smoothing <= 1.0 && s.maxChange > 0.0
  }

  /** The loop state right before the first iteration. */
  function InitialLoopState(poses: PerBone<DriverPose>): (s: LoopState)
    ensures Invariant(s)
    ensures s.poses == poses && s.firstRun
    ensures s.smoothing == 0.0 && s.maxChange == 1.0 && s.vectorChange == 0.0
  {
    LoopState(poses, 0.0, 1.0, 0.0, true)
  }

  datatype StepResult = StepResult(state: LoopState, calibration: CalibrationData, trace: seq<Event>)

  // ---------------------------------------------------------------------
  // Joint to pose
  // ---------------------------------------------------------------------

  /** Sensor (w, x, y, z) to runtime order: runtime x, y, z take sensor z, x, y. */
  function DriverRotation(q: Quat): Quat {
    Quat(q.w, q.z, q.x, q.y)
  }

  /** The same axis permutation for positions, with a millimetre divisor. */
  function DriverPosition(p: Vec3, divisor: real): Vec3
    requires divisor != 0.0
  {
    Vec3(p.z / divisor, p.x / divisor, p.y / divisor)
  }

  /** Finite-difference velocity over the nominal window, times `gain`. */
  function Velocity(from: Vec3, to: Vec3, gain: real): Vec3 {
    Vec3(gain * (to.x - from.x) / VelocityWindow,
         gain * (to.y - from.y) / VelocityWindow,
         gain * (to.z - from.z) / VelocityWindow)
  }

  /** Hip and chest: valid, rotated and placed; velocity untouched. */
  function PlaceBone(p: DriverPose, j: Joint): (r: DriverPose)
    ensures Placed(r, p, j)
  {
    p.(isValid := true,
       rotation := DriverRotation(j.orientation),
       position := DriverPosition(j.position, SingleJointScale))
  }

  /** Legs, elbows and knees: as `PlaceBone`, plus velocity from the previous position. */
  function MoveBone(p: DriverPose, orientation: Quat, position: Vec3, gain: real): (r: DriverPose)
    ensures Follows(r, p, orientation, position, gain)
  {
    p.(isValid := true,
       rotation := DriverRotation(orientation),
       position := position,
       velocity := Velocity(p.position, position, gain))
  }

  // The predicates and functions below state the contracts with the source's
  // literal constants and axis order written out, independently of
  // `DriverRotation`, `DriverPosition`, `Velocity` and the named constants
  // above that the operations compute with.

  /**
   * `n` is `o` moved to `position` with rotation `orientation` taken from
   * sensor order to runtime order (x, y, z from sensor z, x, y), marked
   * valid, with velocity gain * (new - old) / 0.08 per axis; nothing else
   * changes.
   */
  predicate Follows(n: DriverPose, o: DriverPose, orientation: Quat, position: Vec3, gain: real) {
    && n.position == position
    && n.velocity == Vec3(gain * (position.x - o.position.x) / 0.08,
                          gain * (position.y - o.position.y) / 0.08,
                          gain * (position.z - o.position.z) / 0.08)
    && n == o.(isValid := true,
               rotation := Quat(orientation.w, orientation.z, orientation.x, orientation.y),
               position := n.position, velocity := n.velocity)
  }

  /** `n` is `o` placed at joint `j`, velocity untouched. */
  predicate Placed(n: DriverPose, o: DriverPose, j: Joint) {
    n == o.(isValid := true,
            rotation := Quat(j.orientation.w, j.orientation.z, j.orientation.x, j.orientation.y),
            position := Vec3(j.position.z / 1000.0, j.position.x / 1000.0, j.position.y / 1000.0))
  }

  /** Sensor millimetres of one joint as runtime metres. */
  function Metres(j: Joint): Vec3 {
    Vec3(j.position.z / 1000.0, j.position.x / 1000.0, j.position.y / 1000.0)
  }

  /** Sensor millimetres of the mean of two joints as runtime metres. */
  function MeanMetres(a: Joint, b: Joint): Vec3 {
    Vec3((a.position.z + b.position.z) / 2000.0, (a.position.x + b.position.x) / 2000.0,
         (a.position.y + b.position.y) / 2000.0)
  }

  /** Legs: the mean of foot and ankle sets the position, the ankle the rotation. */
  function MoveLeg(p: DriverPose, foot: Joint, ankle: Joint): (r: DriverPose)
    ensures Follows(r, p, ankle.orientation, MeanMetres(foot, ankle), 1.0)
  {
    MoveBone(p, ankle.orientation, DriverPosition(Add(foot.position, ankle.position), JointPairScale), 1.0)
  }

  /** Elbows and knees: one joint, in millimetres, sets the position. */
  function MoveLimb(p: DriverPose, j: Joint, gain: real): (r: DriverPose)
    ensures Follows(r, p, j.orientation, Metres(j), gain)
  {
    MoveBone(p, j.orientation, DriverPosition(j.position, SingleJointScale), gain)
  }

  datatype TrackedBody = TrackedBody(poses: PerBone<DriverPose>, motion: real)

  /**
   * The poses of one tracked skeleton. Legs sit at the mean of foot and
   * ankle and take the ankle's rotation; the chest, elbows and knees are
   * only touched when `moreTrackers` holds, elbow velocities carrying a
   * gain of 1.2. `motion` is the signed sum of the six leg velocity
   * components.
   */
  function TrackBody(poses: PerBone<DriverPose>, sk: Skeleton, moreTrackers: bool): (r: TrackedBody)
    ensures Placed(r.poses.hip, poses.hip, sk[Pelvis])
    ensures Follows(r.poses.rightLeg, poses.rightLeg, sk[AnkleRight].orientation, MeanMetres(sk[FootRight], sk[AnkleRight]), 1.0)
    ensures Follows(r.poses.leftLeg, poses.leftLeg, sk[AnkleLeft].orientation, MeanMetres(sk[FootLeft], sk[AnkleLeft]), 1.0)
    ensures r.motion == ComponentSum(r.poses.rightLeg.velocity) + ComponentSum(r.poses.leftLeg.velocity)
    ensures !moreTrackers ==> forall b :: Extended(b) ==> r.poses.Get(b) == poses.Get(b)
    ensures moreTrackers ==> Placed(r.poses.chest, poses.chest, sk[SpineChest])
    ensures moreTrackers ==>
      && Follows(r.poses.rightElbow, poses.rightElbow, sk[ElbowRight].orientation, Metres(sk[ElbowRight]), 1.2)
      && Follows(r.poses.leftElbow, poses.leftElbow, sk[ElbowLeft].orientation, Metres(sk[ElbowLeft]), 1.2)
      && Follows(r.poses.rightKnee, poses.rightKnee, sk[KneeRight].orientation, Metres(sk[KneeRight]), 1.0)
      && Follows(r.poses.leftKnee, poses.leftKnee, sk[KneeLeft].orientation, Metres(sk[KneeLeft]), 1.0)
  {
    var hip := PlaceBone(poses.hip, sk[Pelvis]);
    var rightLeg := MoveLeg(poses.rightLeg, sk[FootRight], sk[AnkleRight]);
    var leftLeg := MoveLeg(poses.leftLeg, sk[FootLeft], sk[AnkleLeft]);
    var motion := ComponentSum(rightLeg.velocity) + ComponentSum(leftLeg.velocity);
    var core := poses.(hip := hip, rightLeg := rightLeg, leftLeg := leftLeg);
    if !moreTrackers then TrackedBody(core, motion)
    else
      TrackedBody(core.(chest := PlaceBone(poses.chest, sk[SpineChest]),
                        rightElbow := MoveLimb(poses.rightElbow, sk[ElbowRight], ElbowVelocityGain),
                        leftElbow := MoveLimb(poses.leftElbow, sk[ElbowLeft], ElbowVelocityGain),
                        rightKnee := MoveLimb(poses.rightKnee, sk[KneeRight], 1.0),
                        leftKnee := MoveLimb(poses.leftKnee, sk[KneeLeft], 1.0)), motion)
  }

  // ---------------------------------------------------------------------
  // One body, and the loop over bodies
  // ---------------------------------------------------------------------

  datatype Progress = Progress(state: LoopState, trace: seq<Event>)

  function Max(a: real, b: real): real {
    if a < b then b else a
  }

  /** Publish and release-free: every event is a publish or a smoothing change. */
  predicate OnlyPublishes(t: seq<Event>) {
    forall i :: 0 <= i < |t| ==> t[i].Publish? || t[i].SetTemporalSmoothing?
  }

  lemma OnlyPublishesAppend(a: seq<Event>, b: seq<Event>)
    requires OnlyPublishes(a) && OnlyPublishes(b)
    ensures OnlyPublishes(a + b)
  {
  }

  lemma OnlyPublishesReleasesNothing(t: seq<Event>)
    requires OnlyPublishes(t)
    ensures multiset(t)[ReleaseCapture] == 0 && multiset(t)[ReleaseBodyFrame] == 0
    ensures forall e :: e in t ==> !e.ReleaseCapture? && !e.ReleaseBodyFrame?
  {
  }

  lemma AnnounceOnlyPublishes(ids: PerBone<DeviceId>, poses: PerBone<DriverPose>, order: seq<Bone>)
    ensures OnlyPublishes(Announce(ids, poses, order))
  {
    var t := Announce(ids, poses, order);
    forall i | 0 <= i < |t| ensures t[i].Publish? {
      assert t[i] == Publish(ids.Get(order[i]), poses.Get(order[i]));
    }
  }

  /**
   * One pass of the loop over bodies. A failed skeleton marks all eight
   * poses invalid and publishes all eight; a tracked one moves the poses,
   * adds the leg motion to `vectorChange`, publishes the core (and the
   * extended set when enabled) and, under auto-smoothing, moves the
   * baseline to max(vectorChange, maxChange - maxChange * 0.98).
   */
  function ProcessBody(ids: PerBone<DeviceId>, st: LoopState, mem: CalibrationData, body: BodyResult): (r: Progress)
    ensures OnlyPublishes(r.trace)
    ensures r.state.firstRun == st.firstRun && r.state.smoothing == st.smoothing
    ensures st.maxChange > 0.0 ==> r.state.maxChange > 0.0
    ensures body.SkeletonFailed? ==>
      && (forall b :: r.state.poses.Get(b) == st.poses.Get(b).(isValid := false))
      && r.state.vectorChange == st.vectorChange && r.state.maxChange == st.maxChange
    ensures body.Tracked? ==> r.state.poses == TrackBody(st.poses, body.skeleton, mem.moreTrackers).poses
    ensures body.Tracked? ==>
      r.state.vectorChange == st.vectorChange + TrackBody(st.poses, body.skeleton, mem.moreTrackers).motion
    ensures body.Tracked? ==>
      r.state.maxChange == if mem.autoSmooth then Max(r.state.vectorChange, st.maxChange * 0.02) else st.maxChange
  {
    match body
    case SkeletonFailed =>
      var poses := st.poses.Map((p: DriverPose) => p.(isValid := false));
      AnnounceOnlyPublishes(ids, poses, FrameOrder);
      Progress(st.(poses := poses), Announce(ids, poses, FrameOrder))
    case Tracked(sk) =>
      var t := TrackBody(st.poses, sk, mem.moreTrackers);
      var vectorChange := st.vectorChange + t.motion;
      var maxChange := if mem.autoSmooth then Max(vectorChange, st.maxChange - st.maxChange * BaselineDecay)
                       else st.maxChange;
      var order := if mem.moreTrackers then FrameOrder else CoreOrder;
      AnnounceOnlyPublishes(ids, t.poses, order);
      Progress(st.(poses := t.poses, vectorChange := vectorChange, maxChange := maxChange),
               Announce(ids, t.poses, order))
  }

  /** Tracking a body never touches the world-from-driver transform. */
  lemma TrackBodyKeepsTransform(poses: PerBone<DriverPose>, sk: Skeleton, moreTrackers: bool, b: Bone)
    ensures SameTransform(TrackBody(poses, sk, moreTrackers).poses.Get(b), poses.Get(b))
  {
    var r := TrackBody(poses, sk, moreTrackers);
    match b
    case Hip =>
    case RightLeg => assert r.poses.rightLeg.worldFromDriverRotation == poses.rightLeg.worldFromDriverRotation;
    case LeftLeg => assert r.poses.leftLeg.worldFromDriverRotation == poses.leftLeg.worldFromDriverRotation;
    case _ =>
  }

  /** Neither a failed nor a tracked body changes a pose's calibration. */
  lemma ProcessBodyKeepsTransform(ids: PerBone<DeviceId>, st: LoopState, mem: CalibrationData, body: BodyResult, b: Bone)
    ensures SameTransform(ProcessBody(ids, st, mem, body).state.poses.Get(b), st.poses.Get(b))
  {
    if body.Tracked? {
      TrackBodyKeepsTransform(st.poses, body.skeleton, mem.moreTrackers, b);
    }
  }

  /** The value `num_bodies` holds: the truth value of "count != 0", as 0 or 1. */
  function BodyFlag(count: nat): (flag: nat)
    ensures flag <= 1
    ensures flag == 0 <==> count == 0
  {
    if count != 0 then 1 else 0
  }

  /** The `for (i = start; i < n; i++)` loop over bodies. */
  function BodyLoop(ids: PerBone<DeviceId>, st: LoopState, mem: CalibrationData,
                    bodies: seq<BodyResult>, i: nat, n: nat): (r: Progress)
    requires i <= n <= |bodies|
    ensures OnlyPublishes(r.trace)
    ensures r.state.firstRun == st.firstRun && r.state.smoothing == st.smoothing
    ensures st.maxChange > 0.0 ==> r.state.maxChange > 0.0
    decreases n - i
  {
    if i == n then Progress(st, [])
    else
      var one := ProcessBody(ids, st, mem, bodies[i]);
      var rest := BodyLoop(ids, one.state, mem, bodies, i + 1, n);
      Progress(rest.state, one.trace + rest.trace)
  }

  // ---------------------------------------------------------------------
  // Calibration and smoothing for a frame with a body
  // ---------------------------------------------------------------------

  /**
   * The first frame with a body clears `update` and `autoSmooth` and
   * applies the calibration unconditionally; later frames apply it only
   * when `update` is set.
   */
  function Recalibrate(s: LoopState, mem: CalibrationData): (r: Recalibration)
    ensures s.firstRun ==> r.calibration == mem.(update := false, autoSmooth := false)
    ensures !s.firstRun && mem.update ==> r.calibration == mem.(update := false)
    ensures s.firstRun || mem.update ==>
      forall b :: Applied(r.poses.Get(b), mem) && SameExceptCalibration(r.poses.Get(b), s.poses.Get(b))
    ensures !s.firstRun && !mem.update ==> r.poses == s.poses && r.calibration == mem
  {
    var boot := if s.firstRun then UpdateCalibration(s.poses, mem.(update := false, autoSmooth := false))
                else Recalibration(s.poses, mem);
    if boot.calibration.update then UpdateCalibration(boot.poses, boot.calibration) else boot
  }

  datatype SmoothingChoice = SmoothingChoice(smoothing: real, factor: real)

  /**
   * The smoothing factor pushed to the tracker. Without auto-smoothing it is
   * the configured value and the ramp is left alone. With it, the ramp is
   * reset to 0 when the last motion relative to the baseline exceeds the
   * configured value, and otherwise closes 45% of its distance to 1; the
   * ramp is what is pushed.
   */
  function ChooseSmoothing(s: LoopState, mem: CalibrationData): (r: SmoothingChoice)
    requires s.maxChange > 0.0
    ensures !mem.autoSmooth ==> r.smoothing == s.smoothing && r.factor == mem.smoothing
    ensures mem.autoSmooth ==> r.factor == r.smoothing
    ensures mem.autoSmooth && s.vectorChange / s.maxChange > mem.smoothing ==> r.smoothing == 0.0
    ensures mem.autoSmooth && s.vectorChange / s.maxChange <= mem.smoothing ==>
      1.0 - r.smoothing == 0.55 * (1.0 - s.smoothing)
    ensures 0.0 <= s.smoothing <= 1.0 ==> 0.0 <= r.smoothing <= 1.0
  {
    if !mem.autoSmooth then SmoothingChoice(s.smoothing, mem.smoothing)
    else
      var ramp := if s.vectorChange / s.maxChange > mem.smoothing then 0.0
                  else s.smoothing + RampRate * (1.0 - s.smoothing);
      SmoothingChoice(ramp, ramp)
  }

  /**
   * A popped frame holding at least one body: calibrate, choose smoothing,
   * reset `vectorChange`, run the body loop. Because the loop bound is the
   * 0/1 flag, only the first body is ever looked at.
   */
  function ProcessBodyFrame(ids: PerBone<DeviceId>, s: LoopState, mem: CalibrationData,
                            bodies: seq<BodyResult>): (r: StepResult)
    requires |bodies| > 0
    requires s.maxChange > 0.0
    ensures !r.state.firstRun
    ensures r.state.maxChange > 0.0
    ensures Invariant(s) ==> Invariant(r.state)
    ensures OnlyPublishes(r.trace)
  {
    var cal := Recalibrate(s, mem);
    var choice := ChooseSmoothing(s, cal.calibration);
    var st := LoopState(cal.poses, choice.smoothing, s.maxChange, 0.0, false);
    var loop := BodyLoop(ids, st, cal.calibration, bodies, 0, BodyFlag(|bodies|));
    OnlyPublishesAppend([SetTemporalSmoothing(choice.factor)], loop.trace);
    StepResult(loop.state, cal.calibration, [SetTemporalSmoothing(choice.factor)] + loop.trace)
  }

  // ---------------------------------------------------------------------
  // The step
  // ---------------------------------------------------------------------

  /** True when the frame carries a body for the loop to process. */
  predicate HasBody(frame: FrameOutcome) {
    frame.Popped? && BodyFlag(|frame.bodies|) != 0
  }

  /**
   * One iteration of the capture loop. A capture that was obtained is
   * released exactly once, last; a popped body frame is released exactly
   * once, just before it. Without a body nothing else happens.
   */
  function Step(ids: PerBone<DeviceId>, s: LoopState, mem: CalibrationData, frame: FrameOutcome): (r: StepResult)
    requires AllBound(ids)
    requires s.maxChange > 0.0
    ensures multiset(r.trace)[ReleaseCapture] == if frame.CaptureFailed? then 0 else 1
    ensures multiset(r.trace)[ReleaseBodyFrame] == if frame.Popped? then 1 else 0
    ensures !frame.CaptureFailed? ==> |r.trace| >= 1 && r.trace[|r.trace| - 1] == ReleaseCapture
    ensures frame.Popped? ==> |r.trace| >= 2 && r.trace[|r.trace| - 2] == ReleaseBodyFrame
    ensures !HasBody(frame) ==> r.state == s && r.calibration == mem && forall e :: e in r.trace ==> !e.Publish?
    ensures !HasBody(frame) ==> forall e :: e in r.trace ==> e == ReleaseBodyFrame || e == ReleaseCapture
    ensures r.state.maxChange > 0.0
    ensures Invariant(s) ==> Invariant(r.state)
  {
    match frame
    case CaptureFailed => StepResult(s, mem, [])
    case EnqueueFailed => StepResult(s, mem, [ReleaseCapture])
    case PopFailed => StepResult(s, mem, [ReleaseCapture])
    case Popped(bodies) =>
      if BodyFlag(|bodies|) != 0 then ReleaseFrame(ProcessBodyFrame(ids, s, mem, bodies))
      else ReleaseFrame(StepResult(s, mem, []))
  }

  /** The end of an iteration that popped a body frame: release it, then the capture. */
  function ReleaseFrame(body: StepResult): (r: StepResult)
    requires OnlyPublishes(body.trace)
    ensures r.state == body.state && r.calibration == body.calibration
    ensures multiset(r.trace)[ReleaseCapture] == 1 && multiset(r.trace)[ReleaseBodyFrame] == 1
    ensures |r.trace| >= 2 && r.trace[|r.trace| - 2] == ReleaseBodyFrame && r.trace[|r.trace| - 1] == ReleaseCapture
    ensures forall e :: e in r.trace && e.Publish? ==> e in body.trace
    ensures |r.trace| == |body.trace| + 2 && r.trace[..|body.trace|] == body.trace
  {
    var releases := [ReleaseBodyFrame, ReleaseCapture];
    OnlyPublishesReleasesNothing(body.trace);
    assert multiset(body.trace + releases) == multiset(body.trace) + multiset(releases);
    body.(trace := body.trace + releases)
  }

  /** Frames in which a capture was obtained. */
  function Captured(frames: seq<FrameOutcome>): nat {
    if frames == [] then 0 else (if frames[0].CaptureFailed? then 0 else 1) + Captured(frames[1..])
  }

  /** Frames in which a body frame was popped. */
  function PoppedFrames(frames: seq<FrameOutcome>): nat {
    if frames == [] then 0 else (if frames[0].Popped? then 1 else 0) + PoppedFrames(frames[1..])
  }

  /** The record the next iteration reads: the outside write if there was one. */
  function Written(mem: CalibrationData, write: Option<CalibrationData>): (r: CalibrationData)
    ensures write.Some? ==> r == write.value
    ensures write.None? ==> r == mem
  {
    if write.Some? then write.value else mem
  }

  /**
   * Successive iterations. Before each iteration the writer of the shared
   * record may replace it (`writes[i]` is the write that lands before frame
   * `i`, or `None`). Over any run every obtained capture and every popped
   * body frame is released exactly once, and the loop invariant is kept.
   */
  function Run(ids: PerBone<DeviceId>, s: LoopState, mem: CalibrationData,
               frames: seq<FrameOutcome>, writes: seq<Option<CalibrationData>>): (r: StepResult)
    requires AllBound(ids)
    requires s.maxChange > 0.0
    requires |writes| == |frames|
    ensures multiset(r.trace)[ReleaseCapture] == Captured(frames)
    ensures multiset(r.trace)[ReleaseBodyFrame] == PoppedFrames(frames)
    ensures r.state.maxChange > 0.0
    ensures Invariant(s) ==> Invariant(r.state)
    decreases |frames|
  {
    if frames == [] then StepResult(s, mem, [])
    else
      var one := Step(ids, s, Written(mem, writes[0]), frames[0]);
      var rest := Run(ids, one.state, one.calibration, frames[1..], writes[1..]);
      assert multiset(one.trace + rest.trace) == multiset(one.trace) + multiset(rest.trace);
      StepResult(rest.state, rest.calibration, one.trace + rest.trace)
  }
}
