/**
 The value types a boid's transform is made of. Coordinates are exact reals:
 the single-precision rounding of the engine is not modelled.
 */
module Geometry {

  datatype Vec3 = Vec3(x: real, y: real, z: real)

  const Zero: Vec3 := Vec3(0.0, 0.0, 0.0)
  const One: Vec3 := Vec3(1.0, 1.0, 1.0)

  function Add(a: Vec3, b: Vec3): Vec3 {
    Vec3(a.x + b.x, a.y + b.y, a.z + b.z)
  }

  function Sub(a: Vec3, b: Vec3): Vec3 {
    Vec3(a.x - b.x, a.y - b.y, a.z - b.z)
  }

  function Scale(a: Vec3, k: real): Vec3 {
    Vec3(a.x * k, a.y * k, a.z * k)
  }

  function Dot(a: Vec3, b: Vec3): real {
    a.x * b.x + a.y * b.y + a.z * b.z
  }

  /** Scaling a vector by `k` scales its squared length by `k * k`. */
  lemma DotScale(a: Vec3, k: real)
    ensures Dot(Scale(a, k), Scale(a, k)) == k * k * Dot(a, a)
  {
    assert (a.x * k) * (a.x * k) == k * k * (a.x * a.x);
    assert (a.y * k) * (a.y * k) == k * k * (a.y * a.y);
    assert (a.z * k) * (a.z * k) == k * k * (a.z * a.z);
  }

  /** A unit vector scaled by `k` has squared length `k * k`. */
  lemma ScaledUnitLength(a: Vec3, k: real)
    requires Dot(a, a) == 1.0
    ensures Dot(Scale(a, k), Scale(a, k)) == k * k
  {
    DotScale(a, k);
  }

  /** A rotation as the quaternion (x, y, z, w). */
  datatype Quat = Quat(x: real, y: real, z: real, w: real)

  const IdentityRotation: Quat := Quat(0.0, 0.0, 0.0, 1.0)

  /** The squared norm; rotations are the quaternions where it is 1. */
  function NormSq(q: Quat): real {
    q.x * q.x + q.y * q.y + q.z * q.z + q.w * q.w
  }

  /**
   `math.mul(q, float3(0, 0, 1))`: the image of the forward axis under `q`,
   written out from `v + w * t + cross(q.xyz, t)` with `t = 2 * cross(q.xyz, v)`.
   */
  function Forward(q: Quat): (f: Vec3)
    ensures q == IdentityRotation ==> f == Vec3(0.0, 0.0, 1.0)
  {
    Vec3(2.0 * (q.x * q.z + q.w * q.y),
         2.0 * (q.y * q.z - q.w * q.x),
         1.0 - 2.0 * (q.x * q.x + q.y * q.y))
  }

  /**
   A unit quaternion maps the forward axis to a unit vector: with
   `p = x² + y²` and `p' = z² + w²`, the first two components contribute
   `4 p p'` and the third `(1 - 2p)²`, which add up to 1 when `p + p' = 1`.
   */
  lemma ForwardIsUnit(q: Quat)
    requires NormSq(q) == 1.0
    ensures Dot(Forward(q), Forward(q)) == 1.0
  {
    var p := q.x * q.x + q.y * q.y;
    var p' := q.z * q.z + q.w * q.w;
    var f := Forward(q);
    assert f.x * f.x + f.y * f.y == 4.0 * p * p';
    assert f.z * f.z == 1.0 - 4.0 * p + 4.0 * p * p;
    assert p' == 1.0 - p;
  }

  /**
   One entry of the transform buffer: a `Matrix4x4` built by `Matrix4x4.TRS`
   and read back through `GetPosition`, `rotation` and `lossyScale`. The
   decomposition is taken to return exactly what was composed.
   */
  datatype Trs = Trs(position: Vec3, rotation: Quat, scale: Vec3)

  /** `Matrix4x4.TRS(Vector3.zero, Quaternion.identity, Vector3.one * 1)`. */
  const Origin: Trs := Trs(Zero, IdentityRotation, One)
}
