/**
 * The pose record handed to the tracking runtime, the eight bones the
 * provider drives, and the events one step of the provider emits.
 */
module DriverPoses {
  import opened Vectors

  newtype uint32 = i: int | 0 <= i < 0x1_0000_0000

  /** Handle the host runtime assigned to one virtual tracker. */
  type DeviceId = uint32

  /** The runtime's "no device" index: all 32 bits set. */
  const InvalidDeviceIndex: DeviceId := 0xFFFF_FFFF

  /** The fields of the runtime's driver pose that the provider reads or writes. */
  datatype DriverPose = DriverPose(
    timeOffset: real,
    worldFromDriverRotation: Quat,
    worldFromDriverTranslation: Vec3,
    driverFromHeadRotation: Quat,
    driverFromHeadTranslation: Vec3,
    position: Vec3,
    velocity: Vec3,
    acceleration: Vec3,
    rotation: Quat,
    angularVelocity: Vec3,
    angularAcceleration: Vec3,
    isValid: bool,
    willDriftInYaw: bool,
    shouldApplyHeadModel: bool,
    isConnected: bool)

  /** The eight virtual trackers. */
  datatype Bone = Hip | RightLeg | LeftLeg | Chest | RightElbow | LeftElbow | RightKnee | LeftKnee

  /** One value per bone. */
  datatype PerBone<T> = PerBone(hip: T, rightLeg: T, leftLeg: T, chest: T,
                                rightElbow: T, leftElbow: T, rightKnee: T, leftKnee: T)
  {
    function Get(b: Bone): T {
      match b
      case Hip => hip
      case RightLeg => rightLeg
      case LeftLeg => leftLeg
      case Chest => chest
      case RightElbow => rightElbow
      case LeftElbow => leftElbow
      case RightKnee => rightKnee
      case LeftKnee => leftKnee
    }

    function Set(b: Bone, v: T): (r: PerBone<T>)
      ensures r.Get(b) == v
      ensures forall c :: c != b ==> r.Get(c) == Get(c)
    {
      match b
      case Hip => this.(hip := v)
      case RightLeg => this.(rightLeg := v)
      case LeftLeg => this.(leftLeg := v)
      case Chest => this.(chest := v)
      case RightElbow => this.(rightElbow := v)
      case LeftElbow => this.(leftElbow := v)
      case RightKnee => this.(rightKnee := v)
      case LeftKnee => this.(leftKnee := v)
    }

    /** Applies `f` to every bone's value. */
    function Map<U>(f: T -> U): (r: PerBone<U>)
      ensures forall b :: r.Get(b) == f(Get(b))
    {
      PerBone(f(hip), f(rightLeg), f(leftLeg), f(chest),
              f(rightElbow), f(leftElbow), f(rightKnee), f(leftKnee))
    }
  }

  /** Two per-bone records that agree on every bone are equal. */
  lemma PerBoneExtensional<T>(a: PerBone<T>, b: PerBone<T>)
    requires forall c :: a.Get(c) == b.Get(c)
    ensures a == b
  {
    assert a.Get(Hip) == b.Get(Hip) && a.Get(RightLeg) == b.Get(RightLeg);
    assert a.Get(LeftLeg) == b.Get(LeftLeg) && a.Get(Chest) == b.Get(Chest);
    assert a.Get(RightElbow) == b.Get(RightElbow) && a.Get(LeftElbow) == b.Get(LeftElbow);
    assert a.Get(RightKnee) == b.Get(RightKnee) && a.Get(LeftKnee) == b.Get(LeftKnee);
  }

  /** Every bone has been given a real device handle. */
  predicate AllBound(ids: PerBone<DeviceId>) {
    forall b :: ids.Get(b) != InvalidDeviceIndex
  }

  /** Observable effects of the provider, in the order they happen. */
  datatype Event =
    | Publish(device: DeviceId, pose: DriverPose)   // a pose update sent to the runtime
    | SetTemporalSmoothing(factor: real)            // the tracker's smoothing factor is set
    | ReleaseBodyFrame                              // a popped body frame is released
    | ReleaseCapture                                // an obtained capture is released

  /** Publish order of a tracked or failed frame with the extended set on. */
  const FrameOrder: seq<Bone> := [Hip, RightLeg, LeftLeg, Chest, RightElbow, LeftElbow, RightKnee, LeftKnee]

  /** Publish order of a tracked frame with the extended set off. */
  const CoreOrder: seq<Bone> := [Hip, RightLeg, LeftLeg]

  /** Publish order of a stop. */
  const StopOrder: seq<Bone> := [Hip, RightLeg, LeftLeg, RightElbow, LeftElbow, RightKnee, LeftKnee, Chest]

  /** Bones that publish only when the extended tracker set is enabled. */
  predicate Extended(b: Bone) {
    b == Chest || b == RightElbow || b == LeftElbow || b == RightKnee || b == LeftKnee
  }

  /**
   * One publish per entry: the i-th event goes to the device of
   * `deviceOrder[i]` and carries the pose of `poseOrder[i]`.
   */
  function PublishAs(ids: PerBone<DeviceId>, deviceOrder: seq<Bone>,
                     poses: PerBone<DriverPose>, poseOrder: seq<Bone>): (t: seq<Event>)
    requires |deviceOrder| == |poseOrder|
    ensures |t| == |poseOrder|
    ensures forall i :: 0 <= i < |t| ==> t[i] == Publish(ids.Get(deviceOrder[i]), poses.Get(poseOrder[i]))
    decreases |poseOrder|
  {
    if poseOrder == [] then []
    else [Publish(ids.Get(deviceOrder[0]), poses.Get(poseOrder[0]))]
         + PublishAs(ids, deviceOrder[1..], poses, poseOrder[1..])
  }

  /** Each bone in `order` publishes its own pose to its own device. */
  function Announce(ids: PerBone<DeviceId>, poses: PerBone<DriverPose>, order: seq<Bone>): seq<Event> {
    PublishAs(ids, order, poses, order)
  }

  /** Every bone appears in the frame order and in the stop order. */
  lemma OrdersCoverAllBones(b: Bone)
    ensures b in FrameOrder && b in StopOrder
    ensures b in CoreOrder <==> !Extended(b)
  {
    match b
    case Hip => assert FrameOrder[0] == b && StopOrder[0] == b;
    case RightLeg => assert FrameOrder[1] == b && StopOrder[1] == b;
    case LeftLeg => assert FrameOrder[2] == b && StopOrder[2] == b;
    case Chest => assert FrameOrder[3] == b && StopOrder[7] == b;
    case RightElbow => assert FrameOrder[4] == b && StopOrder[3] == b;
    case LeftElbow => assert FrameOrder[5] == b && StopOrder[4] == b;
    case RightKnee => assert FrameOrder[6] == b && StopOrder[5] == b;
    case LeftKnee => assert FrameOrder[7] == b && StopOrder[6] == b;
  }

  /** The stop order is a reordering of the frame order: eight bones, each once. */
  lemma StopOrderReordersFrameOrder()
    ensures |FrameOrder| == |StopOrder| == 8
    ensures multiset(FrameOrder) == multiset(StopOrder)
  {
    assert StopOrder == FrameOrder[..3] + FrameOrder[4..] + [FrameOrder[3]];
    MovedToEnd(FrameOrder, 3);
  }

  /** Moving one element to the end reorders a sequence without changing its contents. */
  lemma MovedToEnd<T>(s: seq<T>, k: nat)
    requires k < |s|
    ensures multiset(s[..k] + s[k+1..] + [s[k]]) == multiset(s)
  {
    assert s == s[..k] + [s[k]] + s[k+1..];
  }
}
