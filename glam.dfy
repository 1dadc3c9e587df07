/**
 * The vector and quaternion arithmetic the controller uses, over exact reals.
 * Rounding of the f32 originals is not modelled; square roots are supplied
 * by the caller where glam would call `f32::sqrt`.
 */
module Glam {

  datatype Vec3 = Vec3(x: real, y: real, z: real)

  const Zero: Vec3 := Vec3(0.0, 0.0, 0.0)
  /** Unit vector pointing up (`Vec3::Y`). */
  const Up: Vec3 := Vec3(0.0, 1.0, 0.0)

  function Add(a: Vec3, b: Vec3): Vec3 { Vec3(a.x + b.x, a.y + b.y, a.z + b.z) }

  function Sub(a: Vec3, b: Vec3): Vec3 { Vec3(a.x - b.x, a.y - b.y, a.z - b.z) }

  /** Adding and subtracting four vectors in turn is adding their two differences. */
  lemma AddSubRegroup(v: Vec3, a: Vec3, b: Vec3, c: Vec3, d: Vec3)
    ensures Sub(Add(Sub(Add(v, a), b), c), d) == Add(v, Add(Sub(a, b), Sub(c, d)))
  {
  }

  function Scale(v: Vec3, s: real): Vec3 { Vec3(v.x * s, v.y * s, v.z * s) }

  function Neg(v: Vec3): Vec3 { Vec3(-v.x, -v.y, -v.z) }

  function Dot(a: Vec3, b: Vec3): real { a.x * b.x + a.y * b.y + a.z * b.z }

  function Cross(a: Vec3, b: Vec3): Vec3 {
    Vec3(a.y * b.z - a.z * b.y, a.z * b.x - a.x * b.z, a.x * b.y - a.y * b.x)
  }

  function LengthSquared(v: Vec3): real { Dot(v, v) }

  /** `v` with its y component replaced, as `v.y = y` does in place. */
  function WithY(v: Vec3, y: real): Vec3 { Vec3(v.x, y, v.z) }

  /** glam's `lerp`: `a + (b - a) * s`. */
  function Lerp(a: Vec3, b: Vec3, s: real): Vec3 { Add(a, Scale(Sub(b, a), s)) }

  /** `f32::min`. */
  function Min(a: real, b: real): real { if a <= b then a else b }

  /** `f32::clamp(lo, hi)`. */
  function Clamp(v: real, lo: real, hi: real): real { if v < lo then lo else if v > hi then hi else v }

  /** A square-root routine the caller supplies: it only has to be positive on positive input. */
  ghost predicate PositiveRoot(sqrt: real -> real) {
    forall r: real :: r > 0.0 ==> sqrt(r) > 0.0
  }

  /**
   * glam's `clamp_length_max`: a vector longer than `max` is rescaled to length
   * `max`, any other vector is returned unchanged.
   */
  function ClampLengthMax(v: Vec3, max: real, sqrt: real -> real): (r: Vec3)
    requires PositiveRoot(sqrt)
    requires max > 0.0
    ensures LengthSquared(v) <= max * max ==> r == v
    ensures LengthSquared(v) > max * max ==> exists s: real :: 0.0 < s && r == Scale(v, s)
  {
    var lengthSq := LengthSquared(v);
    if lengthSq > max * max then
      var s := max / sqrt(lengthSq);
      assert 0.0 < s && Scale(v, s) == Scale(v, s);
      Scale(v, s)
    else v
  }

  datatype Quat = Quat(x: real, y: real, z: real, w: real)

  const Identity: Quat := Quat(0.0, 0.0, 0.0, 1.0)

  /** glam's `Quat * Vec3`: `v (w^2 - |b|^2) + b 2(v.b) + (b x v) 2w` with `b` the vector part. */
  function Rotate(q: Quat, v: Vec3): Vec3 {
    var b := Vec3(q.x, q.y, q.z);
    Add(Add(Scale(v, q.w * q.w - Dot(b, b)), Scale(b, 2.0 * Dot(v, b))), Scale(Cross(b, v), 2.0 * q.w))
  }

  /** A rigid placement, as read from Bevy's `Transform`/`GlobalTransform` (scale is always one here). */
  datatype Transform = Transform(translation: Vec3, rotation: Quat)

  /** `Transform::forward()`: the rotated negative z axis. */
  function Forward(t: Transform): Vec3 {
    Rotate(t.rotation, Vec3(0.0, 0.0, -1.0))
  }
}
