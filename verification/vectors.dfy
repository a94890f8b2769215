/**
 * Plain three-component vectors and (w, x, y, z) quaternions over the reals.
 * The source stores these as `float`/`double`; rounding is not modelled.
 */
module Vectors {

  datatype Vec3 = Vec3(x: real, y: real, z: real)

  datatype Quat = Quat(w: real, x: real, y: real, z: real)

  const Zero3: Vec3 := Vec3(0.0, 0.0, 0.0)

  /** The all-zero quaternion, which is what zero-initialising a pose leaves in it. */
  const ZeroQuat: Quat := Quat(0.0, 0.0, 0.0, 0.0)

  const IdentityQuat: Quat := Quat(1.0, 0.0, 0.0, 0.0)

  function Add(a: Vec3, b: Vec3): Vec3 {
    Vec3(a.x + b.x, a.y + b.y, a.z + b.z)
  }

  function Scale(k: real, a: Vec3): Vec3 {
    Vec3(k * a.x, k * a.y, k * a.z)
  }

  /** Sum of the three components (a signed quantity, not a length). */
  function ComponentSum(a: Vec3): real {
    a.x + a.y + a.z
  }
}
