/**
 * The value types of the geometry kernel that edge extraction uses as keys.
 *
 * A single-precision float is represented by its 32-bit pattern, so two
 * coordinates are equal exactly when their bits are equal. This is the view
 * the kernel's `Hash` implementation takes; the arithmetic on vectors and
 * matrices is not part of this model.
 */
module Geometry {
  /** The bit pattern of an IEEE-754 single-precision float. */
  type F32 = bv32

  /** An IEEE-754 NaN: all exponent bits set and a non-zero mantissa. */
  predicate IsNaN(f: F32)
  {
    f & 0x7F80_0000 == 0x7F80_0000 && f & 0x007F_FFFF != 0
  }

  /** A point of the mesh, compared by the bit patterns of its coordinates. */
  datatype Vec3 = Vec3(x: F32, y: F32, z: F32)

  /** Some coordinate of `v` is NaN, so float equality finds `v` unequal to itself. */
  predicate HasNaN(v: Vec3)
  {
    IsNaN(v.x) || IsNaN(v.y) || IsNaN(v.z)
  }

  /** A segment with ordered endpoints: `Line3(a, b)` and `Line3(b, a)` differ when `a != b`. */
  datatype Line3 = Line3(a: Vec3, b: Vec3)

  /** Four rows of four float bit patterns. */
  type Mat4Rows = m: seq<seq<F32>> | |m| == 4 && forall i :: 0 <= i < 4 ==> |m[i]| == 4
    witness [[0, 0, 0, 0], [0, 0, 0, 0], [0, 0, 0, 0], [0, 0, 0, 0]]

  /** A 4x4 row-major transform, kept as the bit patterns of its sixteen entries. */
  datatype Mat4 = Mat4(m: Mat4Rows)

  /** Swapping the endpoints of a segment gives a different key unless they coincide. */
  lemma LineOrderMatters(a: Vec3, b: Vec3)
    ensures Line3(a, b) == Line3(b, a) <==> a == b
  {
  }
}
