/**
 * Unity's Vector2 and Vector3 over the reals. Floating-point rounding is not modelled:
 * every component is an exact real.
 */
module Vectors {

  datatype Vec2 = Vec2(x: real, y: real)

  datatype Vec3 = Vec3(x: real, y: real, z: real)

  const Zero2: Vec2 := Vec2(0.0, 0.0)
  const Zero: Vec3 := Vec3(0.0, 0.0, 0.0)
  const Up: Vec3 := Vec3(0.0, 1.0, 0.0)
  const Down: Vec3 := Vec3(0.0, -1.0, 0.0)

  function Add(a: Vec3, b: Vec3): Vec3 {
    Vec3(a.x + b.x, a.y + b.y, a.z + b.z)
  }

  function Scale(v: Vec3, k: real): Vec3 {
    Vec3(v.x * k, v.y * k, v.z * k)
  }

  function Neg(v: Vec3): Vec3 {
    Vec3(-v.x, -v.y, -v.z)
  }

  /** The squared length; Unity's `magnitude` is its square root. */
  function SqrMagnitude(v: Vec3): real {
    v.x * v.x + v.y * v.y + v.z * v.z
  }

  /** The squared length of the part of `v` in the horizontal (x, z) plane. */
  function HorizontalSqrMagnitude(v: Vec3): real {
    v.x * v.x + v.z * v.z
  }

  /**
   * Unity's `Vector3.normalized`, given the vector's magnitude as the engine computes it:
   * below Unity's epsilon of 1e-5 the result is the zero vector.
   */
  function Normalized(v: Vec3, magnitude: real): Vec3 {
    if magnitude > 0.00001 then Scale(v, 1.0 / magnitude) else Zero
  }

  function Abs(r: real): real {
    if r < 0.0 then -r else r
  }
}
