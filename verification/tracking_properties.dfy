/**
 * Properties of one iteration of the capture loop that relate several of
 * its parts: calibration bootstrap, body selection, publish order, the
 * smoothing ramp and the motion baseline.
 */
module TrackingProperties {
  import opened Vectors
  import opened Skeletons
  import opened DriverPoses
  import opened Calibration
  import opened Tracking

  /** The state the body loop starts from on a frame with a body. */
  function BodyStart(s: LoopState, mem: CalibrationData): LoopState
    requires s.maxChange > 0.0
  {
    var cal := Recalibrate(s, mem);
    LoopState(cal.poses, ChooseSmoothing(s, cal.calibration).smoothing, s.maxChange, 0.0, false)
  }

  /**
   * Because `num_bodies` holds 0 or 1, the loop over bodies visits body 0
   * and nothing else.
   */
  lemma {:induction false} FrameProcessesFirstBodyOnly(ids: PerBone<DeviceId>, s: LoopState, mem: CalibrationData,
                                                       bodies: seq<BodyResult>)
    requires |bodies| > 0 && s.maxChange > 0.0
    ensures var cal := Recalibrate(s, mem);
      var one := ProcessBody(ids, BodyStart(s, mem), cal.calibration, bodies[0]);
      ProcessBodyFrame(ids, s, mem, bodies)
        == StepResult(one.state, cal.calibration,
                      [SetTemporalSmoothing(ChooseSmoothing(s, cal.calibration).factor)] + one.trace)
  {
    var cal := Recalibrate(s, mem);
    var st := BodyStart(s, mem);
    var one := ProcessBody(ids, st, cal.calibration, bodies[0]);
    assert BodyFlag(|bodies|) == 1;
    assert BodyLoop(ids, one.state, cal.calibration, bodies, 1, 1) == Progress(one.state, []);
    assert one.trace + [] == one.trace;
    assert BodyLoop(ids, st, cal.calibration, bodies, 0, 1) == one;
  }

  /** A whole step on a frame with a body, with the loop over bodies unrolled. */
  lemma StepOnBody(ids: PerBone<DeviceId>, s: LoopState, mem: CalibrationData, frame: FrameOutcome)
    requires AllBound(ids) && s.maxChange > 0.0
    requires HasBody(frame)
    ensures var cal := Recalibrate(s, mem);
      var one := ProcessBody(ids, BodyStart(s, mem), cal.calibration, frame.bodies[0]);
      Step(ids, s, mem, frame)
        == StepResult(one.state, cal.calibration,
                      [SetTemporalSmoothing(ChooseSmoothing(s, cal.calibration).factor)] + one.trace
                      + [ReleaseBodyFrame, ReleaseCapture])
  {
    FrameProcessesFirstBodyOnly(ids, s, mem, frame.bodies);
  }

  /** Two frames whose first body agrees give the same step, whatever else they hold. */
  lemma StepUsesFirstBodyOnly(ids: PerBone<DeviceId>, s: LoopState, mem: CalibrationData,
                              bodies1: seq<BodyResult>, bodies2: seq<BodyResult>)
    requires AllBound(ids) && s.maxChange > 0.0
    requires |bodies1| > 0 && |bodies2| > 0 && bodies1[0] == bodies2[0]
    ensures Step(ids, s, mem, Popped(bodies1)) == Step(ids, s, mem, Popped(bodies2))
  {
    StepOnBody(ids, s, mem, Popped(bodies1));
    StepOnBody(ids, s, mem, Popped(bodies2));
  }

  /**
   * The first frame with a body clears `update` and `autoSmooth`, applies
   * the calibration to all eight poses whatever `update` said, pushes the
   * configured smoothing and ends the first run.
   */
  lemma FirstBodyFrameCalibrates(ids: PerBone<DeviceId>, s: LoopState, mem: CalibrationData, frame: FrameOutcome)
    requires AllBound(ids) && s.maxChange > 0.0
    requires s.firstRun && HasBody(frame)
    ensures var r := Step(ids, s, mem, frame);
      && r.calibration == mem.(update := false, autoSmooth := false)
      && (forall b :: Applied(r.state.poses.Get(b), mem))
      && !r.state.firstRun
      && r.trace[0] == SetTemporalSmoothing(mem.smoothing)
  {
    StepOnBody(ids, s, mem, frame);
    var cal := Recalibrate(s, mem);
    var one := ProcessBody(ids, BodyStart(s, mem), cal.calibration, frame.bodies[0]);
    forall b ensures Applied(one.state.poses.Get(b), mem) {
      assert Applied(cal.poses.Get(b), mem);
      ProcessBodyKeepsTransform(ids, BodyStart(s, mem), cal.calibration, frame.bodies[0], b);
    }
  }

  /**
   * After the first frame, the calibration is applied exactly when the
   * record asks for it, and the request is then cleared; otherwise the
   * world-from-driver transforms and the record stay as they were.
   */
  lemma LaterBodyFrameCalibration(ids: PerBone<DeviceId>, s: LoopState, mem: CalibrationData, frame: FrameOutcome)
    requires AllBound(ids) && s.maxChange > 0.0
    requires !s.firstRun && HasBody(frame)
    ensures var r := Step(ids, s, mem, frame);
      && (mem.update ==> r.calibration == mem.(update := false) && forall b :: Applied(r.state.poses.Get(b), mem))
      && (!mem.update ==> r.calibration == mem && forall b :: SameTransform(r.state.poses.Get(b), s.poses.Get(b)))
  {
    StepOnBody(ids, s, mem, frame);
    var cal := Recalibrate(s, mem);
    var one := ProcessBody(ids, BodyStart(s, mem), cal.calibration, frame.bodies[0]);
    forall b ensures SameTransform(one.state.poses.Get(b), cal.poses.Get(b)) {
      ProcessBodyKeepsTransform(ids, BodyStart(s, mem), cal.calibration, frame.bodies[0], b);
    }
    if mem.update {
      forall b ensures Applied(one.state.poses.Get(b), mem) {
        assert Applied(cal.poses.Get(b), mem);
      }
    }
  }

  /**
   * A body whose skeleton cannot be extracted marks all eight poses
   * invalid, changing nothing else about them, and publishes all eight, in frame order, between the smoothing
   * change and the releases.
   */
  lemma SkeletonFailurePublishesAllInvalid(ids: PerBone<DeviceId>, s: LoopState, mem: CalibrationData,
                                           frame: FrameOutcome)
    requires AllBound(ids) && s.maxChange > 0.0
    requires HasBody(frame) && frame.bodies[0].SkeletonFailed?
    ensures var r := Step(ids, s, mem, frame);
      && (forall b :: r.state.poses.Get(b) == Recalibrate(s, mem).poses.Get(b).(isValid := false))
      && (forall b :: !r.state.poses.Get(b).isValid)
      && |r.trace| == 11
      && r.trace[1..9] == Announce(ids, r.state.poses, FrameOrder)
      && r.state.vectorChange == 0.0 && r.state.maxChange == s.maxChange
  {
    StepOnBody(ids, s, mem, frame);
    var cal := Recalibrate(s, mem);
    var one := ProcessBody(ids, BodyStart(s, mem), cal.calibration, frame.bodies[0]);
    var r := Step(ids, s, mem, frame);
    assert r.trace[1..9] == one.trace;
  }

  /** What one tracked body publishes, stated without the skeleton arithmetic. */
  lemma TrackedBodyAnnounces(ids: PerBone<DeviceId>, st: LoopState, mem: CalibrationData, sk: Skeleton)
    ensures var r := ProcessBody(ids, st, mem, Tracked(sk));
      r.trace == Announce(ids, r.state.poses, if mem.moreTrackers then FrameOrder else CoreOrder)
  {
  }

  /** Which poses one tracked body touches, stated without the skeleton arithmetic. */
  lemma TrackedBodyEffect(ids: PerBone<DeviceId>, st: LoopState, mem: CalibrationData, sk: Skeleton)
    ensures var r := ProcessBody(ids, st, mem, Tracked(sk));
      && (forall b :: !Extended(b) ==> r.state.poses.Get(b).isValid)
      && (!mem.moreTrackers ==> forall b :: Extended(b) ==> r.state.poses.Get(b) == st.poses.Get(b))
  {
    var t := TrackBody(st.poses, sk, mem.moreTrackers);
    assert ProcessBody(ids, st, mem, Tracked(sk)).state.poses == t.poses;
    forall b | !Extended(b) ensures t.poses.Get(b).isValid {
      assert Placed(t.poses.hip, st.poses.hip, sk[Pelvis]);
    }
  }

  /**
   * A tracked body publishes hip, right leg, left leg and, only with the
   * extended set, chest, right elbow, left elbow, right knee, left knee,
   * each bone to its own device.
   */
  lemma TrackedFramePublishes(ids: PerBone<DeviceId>, s: LoopState, mem: CalibrationData, frame: FrameOutcome)
    requires AllBound(ids) && s.maxChange > 0.0
    requires HasBody(frame) && frame.bodies[0].Tracked?
    ensures var r := Step(ids, s, mem, frame);
      var order := if mem.moreTrackers then FrameOrder else CoreOrder;
      && |r.trace| == |order| + 3
      && r.trace[1..|order| + 1] == Announce(ids, r.state.poses, order)
  {
    StepOnBody(ids, s, mem, frame);
    var cal := Recalibrate(s, mem);
    TrackedBodyAnnounces(ids, BodyStart(s, mem), cal.calibration, frame.bodies[0].skeleton);
    var one := ProcessBody(ids, BodyStart(s, mem), cal.calibration, frame.bodies[0]);
    var choice := ChooseSmoothing(s, cal.calibration);
    FramedAnnounce(Step(ids, s, mem, frame), one, SetTemporalSmoothing(choice.factor), ids,
                   if mem.moreTrackers then FrameOrder else CoreOrder);
  }

  /** A step that wraps one body's announcement carries it at positions 1 to |order|. */
  lemma FramedAnnounce(r: StepResult, one: Progress, x: Event, ids: PerBone<DeviceId>, order: seq<Bone>)
    requires one.trace == Announce(ids, one.state.poses, order)
    requires r.state == one.state && r.trace == [x] + one.trace + [ReleaseBodyFrame, ReleaseCapture]
    ensures |r.trace| == |order| + 3
    ensures r.trace[1..|order| + 1] == Announce(ids, r.state.poses, order)
  {
    Framed(x, one.trace, [ReleaseBodyFrame, ReleaseCapture]);
  }

  /** The middle of `[x] + a + b` is `a`. */
  lemma Framed<T>(x: T, a: seq<T>, b: seq<T>)
    ensures |[x] + a + b| == |a| + |b| + 1
    ensures ([x] + a + b)[1..|a| + 1] == a
  {
    assert ([x] + a + b)[1..|a| + 1] == a;
  }

  /**
   * The poses a tracked frame leaves are the recalibrated poses moved by the
   * frame's first body, as `TrackBody` places them.
   */
  lemma TrackedFramePoses(ids: PerBone<DeviceId>, s: LoopState, mem: CalibrationData, frame: FrameOutcome)
    requires AllBound(ids) && s.maxChange > 0.0
    requires HasBody(frame) && frame.bodies[0].Tracked?
    ensures Step(ids, s, mem, frame).state.poses
         == TrackBody(Recalibrate(s, mem).poses, frame.bodies[0].skeleton, mem.moreTrackers).poses
  {
    StepOnBody(ids, s, mem, frame);
  }

  /**
   * A tracked body leaves the hip and legs valid; with the extended set
   * off, the other five poses keep everything but the calibration.
   */
  lemma TrackedFrameKeepsExtended(ids: PerBone<DeviceId>, s: LoopState, mem: CalibrationData, frame: FrameOutcome)
    requires AllBound(ids) && s.maxChange > 0.0
    requires HasBody(frame) && frame.bodies[0].Tracked?
    ensures var r := Step(ids, s, mem, frame);
      && (forall b :: !Extended(b) ==> r.state.poses.Get(b).isValid)
      && (!mem.moreTrackers ==> forall b :: Extended(b) ==> SameExceptCalibration(r.state.poses.Get(b), s.poses.Get(b)))
  {
    StepOnBody(ids, s, mem, frame);
    var cal := Recalibrate(s, mem);
    TrackedBodyEffect(ids, BodyStart(s, mem), cal.calibration, frame.bodies[0].skeleton);
    var one := ProcessBody(ids, BodyStart(s, mem), cal.calibration, frame.bodies[0]);
    if !mem.moreTrackers {
      forall b | Extended(b) ensures SameExceptCalibration(one.state.poses.Get(b), s.poses.Get(b)) {
        assert one.state.poses.Get(b) == cal.poses.Get(b);
        if s.firstRun || mem.update {
          assert SameExceptCalibration(cal.poses.Get(b), s.poses.Get(b));
        } else {
          assert cal.poses == s.poses;
        }
      }
    }
  }

  /**
   * Under auto-smoothing (after the first frame), the ramp resets to 0 when
   * the last motion relative to the baseline exceeds the configured value
   * and otherwise does not decrease; the ramp is what the tracker gets.
   * Without auto-smoothing the ramp is left alone and the tracker gets the
   * configured value.
   */
  lemma SmoothingRamp(ids: PerBone<DeviceId>, s: LoopState, mem: CalibrationData, frame: FrameOutcome)
    requires AllBound(ids) && Invariant(s)
    requires HasBody(frame)
    ensures var r := Step(ids, s, mem, frame);
      var auto := mem.autoSmooth && !s.firstRun;
      && (auto ==> r.trace[0] == SetTemporalSmoothing(r.state.smoothing))
      && (auto && s.vectorChange / s.maxChange > mem.smoothing ==> r.state.smoothing == 0.0)
      && (auto && s.vectorChange / s.maxChange <= mem.smoothing ==> r.state.smoothing >= s.smoothing)
      && (!auto ==> r.state.smoothing == s.smoothing && r.trace[0] == SetTemporalSmoothing(mem.smoothing))
  {
    StepOnBody(ids, s, mem, frame);
  }

  /**
   * The motion and baseline a tracked frame leaves. `vectorChange` restarts
   * from 0 and takes the body's signed leg motion; with auto-smoothing on
   * (after the first frame) the baseline becomes the larger of that motion
   * and 2% of the old baseline, and otherwise it is kept.
   */
  lemma TrackedFrameBaseline(ids: PerBone<DeviceId>, s: LoopState, mem: CalibrationData, frame: FrameOutcome)
    requires AllBound(ids) && s.maxChange > 0.0
    requires HasBody(frame) && frame.bodies[0].Tracked?
    ensures var r := Step(ids, s, mem, frame);
      && r.state.vectorChange == TrackBody(Recalibrate(s, mem).poses, frame.bodies[0].skeleton, mem.moreTrackers).motion
      && r.state.maxChange == if mem.autoSmooth && !s.firstRun then Max(r.state.vectorChange, s.maxChange * 0.02)
                              else s.maxChange
  {
    BodyFrameBaseline(ids, s, mem, frame.bodies);
    assert Step(ids, s, mem, frame).state == ProcessBodyFrame(ids, s, mem, frame.bodies).state;
  }

  /** `TrackedFrameBaseline` before the releases. */
  lemma BodyFrameBaseline(ids: PerBone<DeviceId>, s: LoopState, mem: CalibrationData, bodies: seq<BodyResult>)
    requires |bodies| > 0 && s.maxChange > 0.0 && bodies[0].Tracked?
    ensures var r := ProcessBodyFrame(ids, s, mem, bodies);
      && r.state.vectorChange == TrackBody(Recalibrate(s, mem).poses, bodies[0].skeleton, mem.moreTrackers).motion
      && r.state.maxChange == if mem.autoSmooth && !s.firstRun then Max(r.state.vectorChange, s.maxChange * 0.02)
                              else s.maxChange
  {
    FrameProcessesFirstBodyOnly(ids, s, mem, bodies);
    var cal := Recalibrate(s, mem);
    var st := BodyStart(s, mem);
    var one := ProcessBody(ids, st, cal.calibration, bodies[0]);
    assert st.poses == cal.poses;
    assert cal.calibration.moreTrackers == mem.moreTrackers;
    assert cal.calibration.autoSmooth == (mem.autoSmooth && !s.firstRun);
    BaselineAfterReset(ProcessBodyFrame(ids, s, mem, bodies).state, one.state, st, cal.calibration.autoSmooth,
                       TrackBody(st.poses, bodies[0].skeleton, cal.calibration.moreTrackers).motion, s.maxChange);
  }

  /** The body loop started from `vectorChange` 0 and the old baseline. */
  lemma BaselineAfterReset(r: LoopState, one: LoopState, st: LoopState, auto: bool, motion: real, baseline: real)
    requires st.vectorChange == 0.0 && st.maxChange == baseline
    requires one.vectorChange == st.vectorChange + motion
    requires one.maxChange == if auto then Max(one.vectorChange, st.maxChange * 0.02) else st.maxChange
    requires r == one
    ensures r.vectorChange == motion
    ensures r.maxChange == if auto then Max(r.vectorChange, baseline * 0.02) else baseline
  {
  }

  /**
   * So the baseline decays while the body keeps still: a tracked frame whose
   * motion is at most 2% of the baseline leaves exactly 2% of it.
   */
  lemma StillnessDecaysBaseline(ids: PerBone<DeviceId>, s: LoopState, mem: CalibrationData, frame: FrameOutcome)
    requires AllBound(ids) && s.maxChange > 0.0
    requires HasBody(frame) && frame.bodies[0].Tracked? && mem.autoSmooth && !s.firstRun
    requires TrackBody(Recalibrate(s, mem).poses, frame.bodies[0].skeleton, mem.moreTrackers).motion <= s.maxChange * 0.02
    ensures Step(ids, s, mem, frame).state.maxChange == s.maxChange * 0.02
  {
    TrackedFrameBaseline(ids, s, mem, frame);
  }

  /**
   * After a tracked frame under auto-smoothing the baseline is at least the
   * frame's motion and at least 2% of the old baseline, so on the next
   * frame the ratio the reset test uses is at most 1.
   */
  lemma BaselineBoundsNextRatio(ids: PerBone<DeviceId>, s: LoopState, mem: CalibrationData, frame: FrameOutcome)
    requires AllBound(ids) && s.maxChange > 0.0
    requires HasBody(frame) && frame.bodies[0].Tracked? && mem.autoSmooth && !s.firstRun
    ensures var r := Step(ids, s, mem, frame);
      && r.state.maxChange >= r.state.vectorChange
      && r.state.maxChange >= s.maxChange - s.maxChange * 0.98
      && r.state.vectorChange / r.state.maxChange <= 1.0
  {
    TrackedFrameBaseline(ids, s, mem, frame);
    var r := Step(ids, s, mem, frame);
    RatioAtMostOne(r.state.vectorChange, r.state.maxChange);
  }

  lemma RatioAtMostOne(a: real, m: real)
    requires m > 0.0 && a <= m
    ensures a / m <= 1.0
  {
    assert a / m * m == a;
  }

  /**
   * The motion measure is a signed sum of displacements: it is the change
   * of the x+y+z sums of both leg positions, over the 0.08 s window.
   */
  lemma MotionIsSignedDisplacement(poses: PerBone<DriverPose>, sk: Skeleton, moreTrackers: bool)
    ensures TrackBody(poses, sk, moreTrackers).motion
         == (ComponentSum(MeanMetres(sk[FootRight], sk[AnkleRight])) - ComponentSum(poses.rightLeg.position)
           + ComponentSum(MeanMetres(sk[FootLeft], sk[AnkleLeft])) - ComponentSum(poses.leftLeg.position)) / 0.08
  {
    var t := TrackBody(poses, sk, moreTrackers);
    FollowVelocitySum(t.poses.rightLeg, poses.rightLeg, sk[AnkleRight].orientation, MeanMetres(sk[FootRight], sk[AnkleRight]));
    FollowVelocitySum(t.poses.leftLeg, poses.leftLeg, sk[AnkleLeft].orientation, MeanMetres(sk[FootLeft], sk[AnkleLeft]));
  }

  lemma FollowVelocitySum(n: DriverPose, o: DriverPose, orientation: Quat, position: Vec3)
    requires Follows(n, o, orientation, position, 1.0)
    ensures ComponentSum(n.velocity) == (ComponentSum(position) - ComponentSum(o.position)) / 0.08
  {
  }

  /**
   * So opposite moves cancel: a right leg that moves along a direction
   * whose components sum to zero, beside a still left leg, has a non-zero
   * velocity and yet contributes no motion.
   */
  lemma OpposingMotionCancels(poses: PerBone<DriverPose>, sk: Skeleton, moreTrackers: bool)
    requires MeanMetres(sk[FootRight], sk[AnkleRight]) != poses.rightLeg.position
    requires ComponentSum(MeanMetres(sk[FootRight], sk[AnkleRight])) == ComponentSum(poses.rightLeg.position)
    requires MeanMetres(sk[FootLeft], sk[AnkleLeft]) == poses.leftLeg.position
    ensures TrackBody(poses, sk, moreTrackers).poses.rightLeg.velocity != Zero3
    ensures TrackBody(poses, sk, moreTrackers).motion == 0.0
  {
    MotionIsSignedDisplacement(poses, sk, moreTrackers);
    MovingLegHasVelocity(TrackBody(poses, sk, moreTrackers).poses.rightLeg, poses.rightLeg,
                         sk[AnkleRight].orientation, MeanMetres(sk[FootRight], sk[AnkleRight]));
  }

  lemma MovingLegHasVelocity(n: DriverPose, o: DriverPose, orientation: Quat, position: Vec3)
    requires Follows(n, o, orientation, position, 1.0) && position != o.position
    ensures n.velocity != Zero3
  {
  }

  /** A right-foot sidestep: foot and ankle at (40, -40, 0) mm, every other joint at rest. */
  function Sidestep(): Skeleton {
    seq(JointCount, i => if i == FootRight || i == AnkleRight then Joint(Vec3(40.0, -40.0, 0.0), ZeroQuat) else RestJoint)
  }

  /**
   * Such moves happen: with both legs last seen at the origin, a right-foot
   * sidestep moves the right leg to (0, 0.04, -0.04) m, so the leg has a
   * velocity, and yet the frame's motion is 0.
   */
  lemma SidestepCancels(poses: PerBone<DriverPose>, moreTrackers: bool)
    requires poses.rightLeg.position == Zero3 && poses.leftLeg.position == Zero3
    ensures TrackBody(poses, Sidestep(), moreTrackers).poses.rightLeg.position == Vec3(0.0, 0.04, -0.04)
    ensures TrackBody(poses, Sidestep(), moreTrackers).poses.rightLeg.velocity != Zero3
    ensures TrackBody(poses, Sidestep(), moreTrackers).motion == 0.0
  {
    var sk := Sidestep();
    assert MeanMetres(sk[FootRight], sk[AnkleRight]) == Vec3(0.0, 0.04, -0.04);
    assert MeanMetres(sk[FootLeft], sk[AnkleLeft]) == Zero3;
    OpposingMotionCancels(poses, sk, moreTrackers);
  }

  /**
   * Finite-difference velocity and position agree: the previous position
   * plus 0.08 s of velocity (undoing the gain) is the new position.
   */
  lemma VelocityIntegratesToPosition(n: DriverPose, o: DriverPose, orientation: Quat, position: Vec3, gain: real)
    requires Follows(n, o, orientation, position, gain) && gain != 0.0
    ensures Add(o.position, Scale(0.08 / gain, n.velocity)) == n.position
  {
    var v := n.velocity;
    assert (0.08 / gain) * v.x == position.x - o.position.x;
    assert (0.08 / gain) * v.y == position.y - o.position.y;
    assert (0.08 / gain) * v.z == position.z - o.position.z;
  }

  /**
   * The axis permutation loses nothing: the sensor joint is recovered from
   * a placed pose by scaling back to millimetres and undoing the order.
   */
  lemma PlacedPoseRecoversJoint(n: DriverPose, o: DriverPose, j: Joint)
    requires Placed(n, o, j)
    ensures Vec3(1000.0 * n.position.y, 1000.0 * n.position.z, 1000.0 * n.position.x) == j.position
    ensures Quat(n.rotation.w, n.rotation.y, n.rotation.z, n.rotation.x) == j.orientation
  {
  }
}
