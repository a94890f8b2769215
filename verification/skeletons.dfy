/**
 * What the body tracker hands to the per-frame loop: joints, skeletons and
 * the outcome of one capture/enqueue/pop cycle.
 */
module Skeletons {
  import opened Vectors

  /** One joint: position in millimetres, orientation as (w, x, y, z). */
  datatype Joint = Joint(position: Vec3, orientation: Quat)

  /** Number of joints in a body-tracking skeleton. */
  const JointCount: int := 32

  type JointId = i: int | 0 <= i < JointCount

  // Joint indices used by the bone provider, in the body tracker's numbering.
  const Pelvis: JointId := 0
  const SpineChest: JointId := 2
  const ElbowLeft: JointId := 6
  const ElbowRight: JointId := 13
  const KneeLeft: JointId := 19
  const AnkleLeft: JointId := 20
  const FootLeft: JointId := 21
  const KneeRight: JointId := 23
  const AnkleRight: JointId := 24
  const FootRight: JointId := 25

  const RestJoint: Joint := Joint(Zero3, ZeroQuat)

  /** A full skeleton: one joint per joint id. */
  type Skeleton = s: seq<Joint> | |s| == JointCount witness seq(JointCount, _ => RestJoint)

  /** Result of asking a body frame for the skeleton of one body. */
  datatype BodyResult = SkeletonFailed | Tracked(skeleton: Skeleton)

  /**
   * What one iteration of the capture loop obtained from the device and the
   * tracker: the capture itself may fail, the enqueue may time out, the pop
   * may time out, or a body frame holding `bodies` arrives.
   */
  datatype FrameOutcome =
    | CaptureFailed
    | EnqueueFailed
    | PopFailed
    | Popped(bodies: seq<BodyResult>)
}
