/**
 * The per-joint filter bank of bone_filter.h / bone_filter.cpp: seven
 * scalar Kalman filters, six of which are driven by `GetNextPos`, and the
 * `normalize` helper.
 *
 * The scalar filter's implementation is not part of this model: its state
 * is three configuration fields plus an internal memory of unknown shape
 * `S`, and its update is a function supplied by the caller.
 */
module BoneFilters {
  import opened Vectors
  import opened Wrappers
  import opened Skeletons

  // ---------------------------------------------------------------------
  // normalize
  // ---------------------------------------------------------------------

  function SquaredNorm(q: Quat): real {
    q.w * q.w + q.x * q.x + q.y * q.y + q.z * q.z
  }

  /**
   * The source's `normalize`: the divisor is pow(sqrt(s), 2), which is the
   * squared norm s itself, so each component is divided by s rather than by
   * the norm. A zero quaternion divides 0 by 0 (NaN in every component);
   * that outcome is `None` here.
   */
  function Normalize(q: Quat): (r: Option<Quat>)
    ensures r.None? <==> SquaredNorm(q) == 0.0
    ensures r.Some? ==>
      var s := SquaredNorm(q);
      r.value.w * s == q.w && r.value.x * s == q.x && r.value.y * s == q.y && r.value.z * s == q.z
  {
    var mag := SquaredNorm(q);
    if mag == 0.0 then None
    else Some(Quat(q.w / mag, q.x / mag, q.y / mag, q.z / mag))
  }

  /** A unit quaternion comes back unchanged. */
  lemma NormalizeKeepsUnit(q: Quat)
    requires SquaredNorm(q) == 1.0
    ensures Normalize(q) == Some(q)
  {
    var r := Normalize(q).value;
    assert r.w * 1.0 == q.w && r.x * 1.0 == q.x && r.y * 1.0 == q.y && r.z * 1.0 == q.z;
  }

  /** For squared norm s > 0 the result has squared norm 1/s, not 1. */
  lemma NormalizeInvertsSquaredNorm(q: Quat)
    requires SquaredNorm(q) != 0.0
    ensures SquaredNorm(Normalize(q).value) * SquaredNorm(q) == 1.0
  {
    var s := SquaredNorm(q);
    var r := Normalize(q).value;
    assert s > 0.0;
    calc {
      SquaredNorm(r) * (s * s);
      (r.w * s) * (r.w * s) + (r.x * s) * (r.x * s) + (r.y * s) * (r.y * s) + (r.z * s) * (r.z * s);
      q.w * q.w + q.x * q.x + q.y * q.y + q.z * q.z;
      s;
    }
    assert (SquaredNorm(r) * s) * s == 1.0 * s;
  }

  /** The result is a unit quaternion exactly when the input already was one. */
  lemma NormalizeUnitIffInputUnit(q: Quat)
    requires SquaredNorm(q) != 0.0
    ensures SquaredNorm(Normalize(q).value) == 1.0 <==> SquaredNorm(q) == 1.0
  {
    NormalizeInvertsSquaredNorm(q);
  }

  // ---------------------------------------------------------------------
  // The filter bank
  // ---------------------------------------------------------------------

  /** One scalar Kalman filter: its tuning and its internal memory. */
  datatype AxisFilter<S> = AxisFilter(measurementError: real, estimateError: real, processNoise: real, memory: S)

  /** The scalar filter's update: new filter state and the returned estimate. */
  type Update<!S> = (AxisFilter<S>, real) -> (AxisFilter<S>, real)

  /** The seven filters of one bone: position x, y, z and orientation w, x, y, z. */
  datatype Channel = X | Y | Z | QW | QX | QY | QZ

  predicate IsPosition(c: Channel) {
    c == X || c == Y || c == Z
  }

  datatype BoneFilter<S> = BoneFilter(x: AxisFilter<S>, y: AxisFilter<S>, z: AxisFilter<S>,
                                      qw: AxisFilter<S>, qx: AxisFilter<S>, qy: AxisFilter<S>, qz: AxisFilter<S>)
  {
    function Get(c: Channel): AxisFilter<S> {
      match c
      case X => x
      case Y => y
      case Z => z
      case QW => qw
      case QX => qx
      case QY => qy
      case QZ => qz
    }
  }

  /** The raw joint component each channel filters. */
  function Raw(j: Joint, c: Channel): real {
    match c
    case X => j.position.x
    case Y => j.position.y
    case Z => j.position.z
    case QW => j.orientation.w
    case QX => j.orientation.x
    case QY => j.orientation.y
    case QZ => j.orientation.z
  }

  /** A component of the returned joint: written by the filter, or never written. */
  datatype Slot = Assigned(value: real) | Unassigned

  /** The joint `GetNextPos` returns, one slot per component. */
  datatype FilteredJoint = FilteredJoint(x: Slot, y: Slot, z: Slot, qw: Slot, qx: Slot, qy: Slot, qz: Slot)
  {
    function Get(c: Channel): Slot {
      match c
      case X => x
      case Y => y
      case Z => z
      case QW => qw
      case QX => qx
      case QY => qy
      case QZ => qz
    }
  }

  // Default tuning, as (measurement error, estimate error, process noise).
  const PositionMeasurementError: real := 0.18
  const PositionEstimateError: real := 0.1
  const PositionProcessNoise: real := 0.014
  const OrientationMeasurementError: real := 0.001
  const OrientationEstimateError: real := 0.001
  const OrientationProcessNoise: real := 0.014
  const OrientationWMeasurementError: real := 0.001
  const OrientationWEstimateError: real := 0.1
  const OrientationWProcessNoise: real := 0.01

  /**
   * A freshly constructed bank. Every filter starts from the same internal
   * memory `initial`; only the tuning differs.
   */
  function NewBoneFilter<S>(initial: S): (f: BoneFilter<S>)
    ensures f.x == f.y == f.z
    ensures f.qx == f.qy == f.qz
    ensures f.x.measurementError == 0.18 && f.x.estimateError == 0.1 && f.x.processNoise == 0.014
    ensures f.qx.measurementError == 0.001 && f.qx.estimateError == 0.001 && f.qx.processNoise == 0.014
    ensures f.qw.measurementError == 0.001 && f.qw.estimateError == 0.1 && f.qw.processNoise == 0.01
    ensures f.qx != f.x && f.qx != f.qw && f.qw != f.x
    ensures forall c :: f.Get(c).memory == initial
  {
    var position := AxisFilter(PositionMeasurementError, PositionEstimateError, PositionProcessNoise, initial);
    var orientation := AxisFilter(OrientationMeasurementError, OrientationEstimateError, OrientationProcessNoise, initial);
    var orientationW := AxisFilter(OrientationWMeasurementError, OrientationWEstimateError, OrientationWProcessNoise, initial);
    BoneFilter(position, position, position, orientationW, orientation, orientation, orientation)
  }

  datatype Filtered<S> = Filtered(bank: BoneFilter<S>, joint: FilteredJoint)

  /**
   * `getNextPos`: each of the six filters x, y, z, qx, qy, qz is advanced
   * once on its own raw component and its estimate becomes that component
   * of the result; qw is neither advanced nor written.
   */
  function GetNextPos<S>(f: BoneFilter<S>, raw: Joint, update: Update<S>): (r: Filtered<S>)
    ensures forall c :: c != QW ==>
      var (next, estimate) := update(f.Get(c), Raw(raw, c));
      r.bank.Get(c) == next && r.joint.Get(c) == Assigned(estimate)
    ensures r.bank.qw == f.qw
    ensures r.joint.qw == Unassigned
  {
    var (x, ex) := update(f.x, raw.position.x);
    var (y, ey) := update(f.y, raw.position.y);
    var (z, ez) := update(f.z, raw.position.z);
    var (qx, eqx) := update(f.qx, raw.orientation.x);
    var (qy, eqy) := update(f.qy, raw.orientation.y);
    var (qz, eqz) := update(f.qz, raw.orientation.z);
    Filtered(BoneFilter(x, y, z, f.qw, qx, qy, qz),
             FilteredJoint(Assigned(ex), Assigned(ey), Assigned(ez), Unassigned, Assigned(eqx), Assigned(eqy), Assigned(eqz)))
  }

  /**
   * No cross-axis mixing: a channel's new filter and its output depend only
   * on that channel's filter and raw component.
   */
  lemma GetNextPosChannelsIndependent<S>(f: BoneFilter<S>, g: BoneFilter<S>, raw1: Joint, raw2: Joint,
                                         update: Update<S>, c: Channel)
    requires f.Get(c) == g.Get(c)
    requires Raw(raw1, c) == Raw(raw2, c)
    ensures GetNextPos(f, raw1, update).bank.Get(c) == GetNextPos(g, raw2, update).bank.Get(c)
    ensures GetNextPos(f, raw1, update).joint.Get(c) == GetNextPos(g, raw2, update).joint.Get(c)
  {
  }

  /** Applies `change` to the three position filters only. */
  function WithPositions<S>(f: BoneFilter<S>, change: AxisFilter<S> -> AxisFilter<S>): BoneFilter<S> {
    f.(x := change(f.x), y := change(f.y), z := change(f.z))
  }

  /** `setEstimateError`: x, y and z get the same estimate error; the orientation filters keep theirs. */
  function SetEstimateError<S>(f: BoneFilter<S>, e: real): (r: BoneFilter<S>)
    ensures forall c :: IsPosition(c) ==> r.Get(c) == f.Get(c).(estimateError := e)
    ensures forall c :: !IsPosition(c) ==> r.Get(c) == f.Get(c)
  {
    WithPositions(f, (a: AxisFilter<S>) => a.(estimateError := e))
  }

  /** `setMeasurementError`: x, y and z get the same measurement error; the orientation filters keep theirs. */
  function SetMeasurementError<S>(f: BoneFilter<S>, e: real): (r: BoneFilter<S>)
    ensures forall c :: IsPosition(c) ==> r.Get(c) == f.Get(c).(measurementError := e)
    ensures forall c :: !IsPosition(c) ==> r.Get(c) == f.Get(c)
  {
    WithPositions(f, (a: AxisFilter<S>) => a.(measurementError := e))
  }

  /** `setProcessNoise`: x, y and z get the same process noise; the orientation filters keep theirs. */
  function SetProcessNoise<S>(f: BoneFilter<S>, q: real): (r: BoneFilter<S>)
    ensures forall c :: IsPosition(c) ==> r.Get(c) == f.Get(c).(processNoise := q)
    ensures forall c :: !IsPosition(c) ==> r.Get(c) == f.Get(c)
  {
    WithPositions(f, (a: AxisFilter<S>) => a.(processNoise := q))
  }

  /**
   * Reconfiguring a bank does not change what its orientation filters
   * produce: the orientation outputs after any setter are those of the
   * unconfigured bank.
   */
  lemma SettersLeaveOrientationOutputs<S>(f: BoneFilter<S>, raw: Joint, update: Update<S>,
                                          mea: real, est: real, q: real, c: Channel)
    requires !IsPosition(c)
    ensures var g := SetProcessNoise(SetEstimateError(SetMeasurementError(f, mea), est), q);
      GetNextPos(g, raw, update).joint.Get(c) == GetNextPos(f, raw, update).joint.Get(c)
      && GetNextPos(g, raw, update).bank.Get(c) == GetNextPos(f, raw, update).bank.Get(c)
  {
    var g := SetProcessNoise(SetEstimateError(SetMeasurementError(f, mea), est), q);
    assert g.Get(c) == f.Get(c);
    GetNextPosChannelsIndependent(g, f, raw, raw, update, c);
  }

  /** After a setter the three position filters agree on the configured field. */
  lemma SettersSynchronisePositions<S>(f: BoneFilter<S>, mea: real, est: real, q: real)
    ensures var g := SetProcessNoise(SetEstimateError(SetMeasurementError(f, mea), est), q);
      forall c :: IsPosition(c) ==>
        g.Get(c).measurementError == mea && g.Get(c).estimateError == est && g.Get(c).processNoise == q
  {
  }
}
