/**
 * The calibration record an external tool writes into shared memory, and
 * the broadcast of its offset to the world-from-driver transform of every
 * bone (`UpdateCalibration` in bone_provider.cpp).
 */
module Calibration {
  import opened Vectors
  import opened DriverPoses

  /**
   * Snapshot of the shared calibration record. `update` is the writer's
   * request to re-apply the offset; `smoothing` is both the fixed tracker
   * smoothing and the auto-smoothing reset threshold; `moreTrackers`
   * enables the chest, elbow and knee trackers.
   */
  datatype CalibrationData = CalibrationData(
    update: bool,
    offset: Vec3,
    rotOffset: Quat,
    autoSmooth: bool,
    smoothing: real,
    moreTrackers: bool)

  /** The pose's world-from-driver transform is the record's offset and rotation. */
  predicate Applied(p: DriverPose, c: CalibrationData) {
    p.worldFromDriverTranslation == c.offset && p.worldFromDriverRotation == c.rotOffset
  }

  /** `p` and `q` carry the same world-from-driver transform. */
  predicate SameTransform(p: DriverPose, q: DriverPose) {
    p.worldFromDriverTranslation == q.worldFromDriverTranslation
    && p.worldFromDriverRotation == q.worldFromDriverRotation
  }

  /** `p` and `q` agree on every field except the world-from-driver transform. */
  predicate SameExceptCalibration(p: DriverPose, q: DriverPose) {
    p.(worldFromDriverRotation := q.worldFromDriverRotation,
       worldFromDriverTranslation := q.worldFromDriverTranslation) == q
  }

  datatype Recalibration = Recalibration(poses: PerBone<DriverPose>, calibration: CalibrationData)

  /**
   * Copies the offset and rotation of `c` into every bone's world-from-driver
   * transform and clears the record's `update` request.
   */
  function UpdateCalibration(poses: PerBone<DriverPose>, c: CalibrationData): (r: Recalibration)
    ensures forall b :: Applied(r.poses.Get(b), c) && SameExceptCalibration(r.poses.Get(b), poses.Get(b))
    ensures r.calibration == c.(update := false)
  {
    var place := (p: DriverPose) => p.(worldFromDriverTranslation := c.offset, worldFromDriverRotation := c.rotOffset);
    Recalibration(poses.Map(place), c.(update := false))
  }

  /** Applying the calibration a second time changes nothing. */
  lemma UpdateCalibrationIdempotent(poses: PerBone<DriverPose>, c: CalibrationData)
    ensures var r := UpdateCalibration(poses, c); UpdateCalibration(r.poses, r.calibration) == r
  {
    var r := UpdateCalibration(poses, c);
    var r2 := UpdateCalibration(r.poses, r.calibration);
    forall b ensures r2.poses.Get(b) == r.poses.Get(b) {
      assert Applied(r.poses.Get(b), c);
    }
    PerBoneExtensional(r2.poses, r.poses);
  }
}
