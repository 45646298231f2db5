/**
 * Three-component vectors of reals. The engine keeps every position,
 * velocity, force and size in a float32 numpy array of length 3; the model
 * uses exact reals and an explicit record.
 */
module Vectors {

  datatype Vec3 = Vec3(x: real, y: real, z: real) {

    /** Component `axis` (0 = x, 1 = y, 2 = z), as `v[axis]` in numpy. */
    function At(axis: nat): real
      requires axis < 3
    {
      if axis == 0 then x else if axis == 1 then y else z
    }

    /** The vector with component `axis` replaced, as `v[axis] = value`. */
    function With(axis: nat, value: real): (r: Vec3)
      requires axis < 3
      ensures r.At(axis) == value
      ensures forall k :: 0 <= k < 3 && k != axis ==> r.At(k) == At(k)
    {
      if axis == 0 then Vec3(value, y, z)
      else if axis == 1 then Vec3(x, value, z)
      else Vec3(x, y, value)
    }
  }

  const Zero := Vec3(0.0, 0.0, 0.0)

  /** Elementwise `a + b`. */
  function Add(a: Vec3, b: Vec3): Vec3 {
    Vec3(a.x + b.x, a.y + b.y, a.z + b.z)
  }

  /** Elementwise `a - b`. */
  function Sub(a: Vec3, b: Vec3): Vec3 {
    Vec3(a.x - b.x, a.y - b.y, a.z - b.z)
  }

  /** `a * s` for a scalar `s`. */
  function Scale(a: Vec3, s: real): Vec3 {
    Vec3(a.x * s, a.y * s, a.z * s)
  }

  /** `a / s` for a scalar `s`. */
  function Div(a: Vec3, s: real): Vec3
    requires s != 0.0
  {
    Vec3(a.x / s, a.y / s, a.z / s)
  }

  /** Elementwise `a * b` (numpy broadcasting of two 3-vectors). */
  function Mul(a: Vec3, b: Vec3): Vec3 {
    Vec3(a.x * b.x, a.y * b.y, a.z * b.z)
  }

  function Dot(a: Vec3, b: Vec3): real {
    a.x * b.x + a.y * b.y + a.z * b.z
  }

  /** `lo <= v <= hi` on every axis. */
  predicate InBox(v: Vec3, lo: Vec3, hi: Vec3) {
    forall k :: 0 <= k < 3 ==> lo.At(k) <= v.At(k) <= hi.At(k)
  }
}
