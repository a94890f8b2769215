/**
 * The bone provider object: the member poses and device handles that
 * `setup_bone` fills in, the stop transition, and the prologue of the
 * tracking thread that brings the trackers online before the loop starts.
 */
module Provider {
  import opened Vectors
  import opened Wrappers
  import opened Skeletons
  import opened DriverPoses
  import opened Tracking

  /** Result codes of the provider's public operations. */
  datatype ProviderError = NoError | OpenError | CalibrationError | CameraStartError

  /**
   * The provider's observable state: whether the device is open, whether
   * the tracking thread is (to be) running, the last error, and the member
   * pose and device handle of each bone.
   */
  datatype BoneProvider = BoneProvider(
    open: bool,
    online: bool,
    error: ProviderError,
    ids: PerBone<DeviceId>,
    poses: PerBone<DriverPose>)

  // ---------------------------------------------------------------------
  // setup_bone
  // ---------------------------------------------------------------------

  /** cos(pi/4) and sin(pi/4) as the nearest doubles; their exact values are not modelled. */
  const CosQuarterPi: real := 0.7071067811865476
  const SinQuarterPi: real := 0.7071067811865475

  /**
   * The zero-initialised pose `setup_bone` starts every bone from: a
   * 0.11 s time offset, identity head rotation, a quarter-turn about x as
   * world-from-driver rotation, everything else zero or false.
   */
  const DefaultPose: DriverPose := DriverPose(
    timeOffset := 0.11,
    worldFromDriverRotation := Quat(CosQuarterPi, SinQuarterPi, 0.0, 0.0),
    worldFromDriverTranslation := Zero3,
    driverFromHeadRotation := IdentityQuat,
    driverFromHeadTranslation := Zero3,
    position := Zero3,
    velocity := Zero3,
    acceleration := Zero3,
    rotation := ZeroQuat,
    angularVelocity := Zero3,
    angularAcceleration := Zero3,
    isValid := false,
    willDriftInYaw := false,
    shouldApplyHeadModel := false,
    isConnected := false)

  /**
   * The bone slot a sensor joint is bound to. Seven joints have their own
   * slot; every other joint id falls through to the left knee.
   */
  function BoneForJoint(joint: JointId): (b: Bone)
    ensures b == Hip <==> joint == Pelvis
    ensures b == RightLeg <==> joint == FootRight
    ensures b == LeftLeg <==> joint == FootLeft
    ensures b == Chest <==> joint == SpineChest
    ensures b == RightElbow <==> joint == ElbowRight
    ensures b == LeftElbow <==> joint == ElbowLeft
    ensures b == RightKnee <==> joint == KneeRight
    ensures b == LeftKnee <==> joint !in {Pelvis, FootRight, FootLeft, SpineChest, ElbowRight, ElbowLeft, KneeRight}
  {
    if joint == Pelvis then Hip
    else if joint == FootRight then RightLeg
    else if joint == FootLeft then LeftLeg
    else if joint == SpineChest then Chest
    else if joint == ElbowRight then RightElbow
    else if joint == ElbowLeft then LeftElbow
    else if joint == KneeRight then RightKnee
    else LeftKnee
  }

  /** The joint the driver registers each bone with. */
  function JointFor(b: Bone): (joint: JointId)
    ensures BoneForJoint(joint) == b
  {
    match b
    case Hip => Pelvis
    case RightLeg => FootRight
    case LeftLeg => FootLeft
    case Chest => SpineChest
    case RightElbow => ElbowRight
    case LeftElbow => ElbowLeft
    case RightKnee => KneeRight
    case LeftKnee => KneeLeft
  }

  /** Distinct bones are registered with distinct joints. */
  lemma JointForInjective(a: Bone, b: Bone)
    requires JointFor(a) == JointFor(b)
    ensures a == b
  {
    assert BoneForJoint(JointFor(a)) == a;
  }

  /**
   * Binds `objectId` to the slot of `joint` and resets that slot's pose to
   * the default; every other slot and the device state are untouched.
   */
  function SetupBone(p: BoneProvider, objectId: DeviceId, joint: JointId): (r: BoneProvider)
    ensures r.ids.Get(BoneForJoint(joint)) == objectId
    ensures r.poses.Get(BoneForJoint(joint)) == DefaultPose
    ensures forall b :: b != BoneForJoint(joint) ==> r.ids.Get(b) == p.ids.Get(b) && r.poses.Get(b) == p.poses.Get(b)
    ensures r.open == p.open && r.online == p.online && r.error == p.error
  {
    var b := BoneForJoint(joint);
    p.(ids := p.ids.Set(b, objectId), poses := p.poses.Set(b, DefaultPose))
  }

  /** Setting up the same joint twice keeps only the second handle. */
  lemma SetupBoneLastWins(p: BoneProvider, first: DeviceId, second: DeviceId, joint: JointId)
    ensures SetupBone(SetupBone(p, first, joint), second, joint) == SetupBone(p, second, joint)
  {
    var a := SetupBone(SetupBone(p, first, joint), second, joint);
    var b := SetupBone(p, second, joint);
    PerBoneExtensional(a.ids, b.ids);
    PerBoneExtensional(a.poses, b.poses);
  }

  /** Sets up every bone with its registered joint, in the order of `order`. */
  function SetupAll(p: BoneProvider, ids: PerBone<DeviceId>, order: seq<Bone>): BoneProvider
    decreases |order|
  {
    if order == [] then p
    else SetupAll(SetupBone(p, ids.Get(order[0]), JointFor(order[0])), ids, order[1..])
  }

  /** Setting up the bones in `order` binds and resets exactly those bones. */
  lemma {:induction false} SetupAllBindsListed(p: BoneProvider, ids: PerBone<DeviceId>, order: seq<Bone>)
    ensures forall b :: b in order ==> SetupAll(p, ids, order).ids.Get(b) == ids.Get(b)
    ensures forall b :: b in order ==> SetupAll(p, ids, order).poses.Get(b) == DefaultPose
    ensures forall b :: b !in order ==> SetupAll(p, ids, order).ids.Get(b) == p.ids.Get(b)
    ensures forall b :: b !in order ==> SetupAll(p, ids, order).poses.Get(b) == p.poses.Get(b)
    decreases |order|
  {
    if order != [] {
      var q := SetupBone(p, ids.Get(order[0]), JointFor(order[0]));
      SetupAllBindsListed(q, ids, order[1..]);
      forall b | b in order
        ensures SetupAll(p, ids, order).ids.Get(b) == ids.Get(b)
        ensures SetupAll(p, ids, order).poses.Get(b) == DefaultPose
      {
        if b !in order[1..] {
          assert b == order[0];
        }
      }
    }
  }

  /**
   * Once the runtime has handed out a real handle for each of the eight
   * bones, setting them all up satisfies the tracking thread's wait
   * condition and leaves every bone at the default pose.
   */
  lemma SetupEveryBoneBindsAll(p: BoneProvider, ids: PerBone<DeviceId>)
    requires AllBound(ids)
    ensures AllBound(SetupAll(p, ids, FrameOrder).ids)
    ensures forall b :: SetupAll(p, ids, FrameOrder).poses.Get(b) == DefaultPose
  {
    SetupAllBindsListed(p, ids, FrameOrder);
    forall b ensures b in FrameOrder {
      OrdersCoverAllBones(b);
    }
  }

  // ---------------------------------------------------------------------
  // Stop
  // ---------------------------------------------------------------------

  datatype StopResult = StopResult(provider: BoneProvider, trace: seq<Event>, returned: ProviderError)

  /** The pose a bone is left with when the provider goes offline. */
  function Offline(pose: DriverPose): DriverPose {
    pose.(isConnected := false, isValid := false)
  }

  function OfflineAll(poses: PerBone<DriverPose>): (r: PerBone<DriverPose>)
    ensures forall b :: r.Get(b) == Offline(poses.Get(b))
  {
    PerBone(Offline(poses.hip), Offline(poses.rightLeg), Offline(poses.leftLeg), Offline(poses.chest),
            Offline(poses.rightElbow), Offline(poses.leftElbow), Offline(poses.rightKnee), Offline(poses.leftKnee))
  }

  /**
   * Takes an open, online provider offline: every member pose is marked
   * disconnected and invalid and published in the stop order, and the
   * error is cleared. Otherwise nothing happens and the last error is
   * returned.
   */
  function Stop(p: BoneProvider): (r: StopResult)
    ensures p.open && p.online ==>
      && !r.provider.online
      && r.provider.open && r.provider.ids == p.ids
      && (forall b :: r.provider.poses.Get(b) == Offline(p.poses.Get(b)))
      && |r.trace| == 8
      && (forall i :: 0 <= i < 8 ==> r.trace[i] == Publish(p.ids.Get(StopOrder[i]), Offline(p.poses.Get(StopOrder[i]))))
      && r.provider.error == NoError && r.returned == NoError
    ensures !(p.open && p.online) ==> r.provider == p && r.trace == [] && r.returned == p.error
  {
    if p.open && p.online then
      var poses := OfflineAll(p.poses);
      StopResult(p.(online := false, poses := poses, error := NoError), Announce(p.ids, poses, StopOrder), NoError)
    else
      StopResult(p, [], p.error)
  }

  /** A second stop publishes nothing and reports what the first one did. */
  lemma StopTwice(p: BoneProvider)
    ensures Stop(Stop(p).provider).trace == []
    ensures Stop(Stop(p).provider).provider == Stop(p).provider
    ensures Stop(Stop(p).provider).returned == Stop(p).returned
  {
  }

  /** Every bone's device hears from the stop, with that bone's pose, now offline. */
  lemma StopAnnouncesEveryBone(p: BoneProvider, b: Bone)
    requires p.open && p.online
    ensures exists k :: 0 <= k < 8 && Stop(p).trace[k] == Publish(p.ids.Get(b), Offline(p.poses.Get(b)))
  {
    OrdersCoverAllBones(b);
    var k :| 0 <= k < 8 && StopOrder[k] == b;
    assert Stop(p).trace[k] == Publish(p.ids.Get(b), Offline(p.poses.Get(b)));
  }

  /** With a handle of its own, a bone's device hears from the stop at most once. */
  lemma StopAnnouncesEachBoneOnce(p: BoneProvider, b: Bone)
    requires p.open && p.online
    requires forall c :: c != b ==> p.ids.Get(c) != p.ids.Get(b)
    ensures forall i, j :: 0 <= i < j < 8 ==> Stop(p).trace[i].device != p.ids.Get(b) || Stop(p).trace[j].device != p.ids.Get(b)
  {
    var t := Stop(p).trace;
    assert |t| == |StopOrder|;
    forall i | 0 <= i < |t| ensures t[i].Publish? && t[i].device == p.ids.Get(StopOrder[i]) {
      assert t[i] == Publish(p.ids.Get(StopOrder[i]), Offline(p.poses.Get(StopOrder[i])));
    }
    StopOrderDistinct();
    DeviceHeardOnce(t, p.ids, StopOrder, b);
  }

  /**
   * A trace that publishes to the devices of a repetition-free bone
   * order reaches a device with its own handle at most once.
   */
  lemma DeviceHeardOnce(t: seq<Event>, ids: PerBone<DeviceId>, order: seq<Bone>, b: Bone)
    requires |t| == |order|
    requires forall i :: 0 <= i < |t| ==> t[i].Publish? && t[i].device == ids.Get(order[i])
    requires forall i, j :: 0 <= i < j < |order| ==> order[i] != order[j]
    requires forall c :: c != b ==> ids.Get(c) != ids.Get(b)
    ensures forall i, j :: 0 <= i < j < |t| ==> t[i].device != ids.Get(b) || t[j].device != ids.Get(b)
  {
    forall i, j | 0 <= i < j < |t|
      ensures t[i].device != ids.Get(b) || t[j].device != ids.Get(b)
    {
      if order[i] != b {
        assert t[i].device == ids.Get(order[i]);
      } else {
        assert t[j].device == ids.Get(order[j]);
      }
    }
  }

  /** No bone appears twice in the stop order. */
  lemma StopOrderDistinct()
    ensures forall i, j :: 0 <= i < j < |StopOrder| ==> StopOrder[i] != StopOrder[j]
  {
  }

  // ---------------------------------------------------------------------
  // Go-online prologue of the tracking thread
  // ---------------------------------------------------------------------

  /** Temporal smoothing the thread configures on the body tracker. */
  const TrackerSmoothing: real := 0.025

  /**
   * The devices the go-online announcement targets, in order: the first
   * three handles are reused for the remaining five poses.
   */
  const GoOnlineDevices: seq<Bone> := [Hip, RightLeg, LeftLeg, Hip, RightLeg, LeftLeg, RightLeg, LeftLeg]

  /** The pose a bone is given when the provider comes online. */
  function Connected(pose: DriverPose): DriverPose {
    pose.(isConnected := true)
  }

  function ConnectAll(poses: PerBone<DriverPose>): (r: PerBone<DriverPose>)
    ensures forall b :: r.Get(b) == Connected(poses.Get(b))
  {
    PerBone(Connected(poses.hip), Connected(poses.rightLeg), Connected(poses.leftLeg), Connected(poses.chest),
            Connected(poses.rightElbow), Connected(poses.leftElbow), Connected(poses.rightKnee), Connected(poses.leftKnee))
  }

  datatype LaunchResult = LaunchResult(provider: BoneProvider, loop: Option<LoopState>, trace: seq<Event>)

  /**
   * What the tracking thread does before its first frame, once every
   * bone has a handle. Without a body tracker nothing happens and no loop
   * runs. Otherwise the tracker's smoothing is set; a provider not yet
   * online goes online, marks every member pose connected and announces
   * them; and the loop starts from copies of the member poses.
   */
  function Launch(p: BoneProvider, trackerCreated: bool): (r: LaunchResult)
    requires AllBound(p.ids)
    ensures !trackerCreated ==> r.provider == p && r.loop == None && r.trace == []
    ensures trackerCreated ==>
      && r.provider.online
      && |r.trace| >= 1 && r.trace[0] == SetTemporalSmoothing(TrackerSmoothing)
      && r.loop == Some(InitialLoopState(r.provider.poses))
    ensures trackerCreated && p.online ==> r.provider == p && r.trace == [SetTemporalSmoothing(TrackerSmoothing)]
    ensures trackerCreated && !p.online ==>
      && r.provider == p.(online := true, poses := r.provider.poses)
      && (forall b :: r.provider.poses.Get(b) == Connected(p.poses.Get(b)))
      && |r.trace| == 9
      && (forall i :: 1 <= i < 9 ==>
            r.trace[i] == Publish(p.ids.Get(GoOnlineDevices[i - 1]), Connected(p.poses.Get(FrameOrder[i - 1]))))
  {
    if !trackerCreated then LaunchResult(p, None, [])
    else if p.online then
      LaunchResult(p, Some(InitialLoopState(p.poses)), [SetTemporalSmoothing(TrackerSmoothing)])
    else
      var poses := ConnectAll(p.poses);
      var q := p.(online := true, poses := poses);
      LaunchResult(q, Some(InitialLoopState(poses)),
                   [SetTemporalSmoothing(TrackerSmoothing)] + PublishAs(p.ids, GoOnlineDevices, poses, FrameOrder))
  }

  /**
   * The go-online announcement reaches only the hip and leg devices, so
   * with distinct handles the chest, elbow and knee trackers are never
   * told they are connected.
   */
  lemma GoOnlineReachesOnlyCoreDevices(p: BoneProvider, i: int)
    requires AllBound(p.ids) && !p.online
    requires 1 <= i < 9
    ensures Launch(p, true).trace[i].device in {p.ids.Get(Hip), p.ids.Get(RightLeg), p.ids.Get(LeftLeg)}
  {
    GoOnlineDevicesAreCore(i - 1);
    assert Launch(p, true).trace[i].device == p.ids.Get(GoOnlineDevices[i - 1]);
  }

  lemma GoOnlineDevicesAreCore(k: int)
    requires 0 <= k < |GoOnlineDevices|
    ensures GoOnlineDevices[k] in CoreOrder
  {
  }

  /** The extended trackers, when their handles are their own, are never announced. */
  lemma GoOnlineSkipsExtendedDevices(p: BoneProvider, b: Bone, i: int)
    requires AllBound(p.ids) && !p.online
    requires forall c :: c != b ==> p.ids.Get(c) != p.ids.Get(b)
    requires Extended(b) && 1 <= i < 9
    ensures Launch(p, true).trace[i].device != p.ids.Get(b)
  {
    GoOnlineReachesOnlyCoreDevices(p, i);
  }

  /** The hip device is sent the chest pose. */
  lemma GoOnlineSendsChestToHip(p: BoneProvider)
    requires AllBound(p.ids) && !p.online
    ensures Launch(p, true).trace[4] == Publish(p.ids.Get(Hip), Connected(p.poses.Get(Chest)))
  {
    assert GoOnlineDevices[3] == Hip && FrameOrder[3] == Chest;
  }

  /**
   * The loop works on copies and never writes the member poses back, so a
   * stop after a launch announces the poses the provider went online
   * with, each now offline, whatever frames the loop processed.
   */
  lemma StopAfterLaunch(p: BoneProvider)
    requires AllBound(p.ids) && p.open && !p.online
    ensures var s := Stop(Launch(p, true).provider);
      && s.returned == NoError && !s.provider.online
      && forall i :: 0 <= i < 8 ==>
           s.trace[i] == Publish(p.ids.Get(StopOrder[i]), Offline(Connected(p.poses.Get(StopOrder[i]))))
  {
  }
}
