/**
 * The three-component coordinate type a bounding box is built from, reduced
 * to the operations the box uses: componentwise min and max, addition,
 * subtraction and the squared Euclidean norm.
 *
 * Coordinates are mathematical reals; the rounding of `double` is not modelled.
 */
module Vector3 {

  /** A point (or a displacement) in 3-D space. */
  datatype V3 = V3(x: real, y: real, z: real)

  /** `a` is below or equal to `b` on every axis. */
  predicate LessEq(a: V3, b: V3) {
    a.x <= b.x && a.y <= b.y && a.z <= b.z
  }

  /** `std::min` on one axis: the smaller of the two, and one of the two. */
  function MinReal(a: real, b: real): (r: real)
    ensures r <= a && r <= b
    ensures r == a || r == b
  {
    if b < a then b else a
  }

  /** `std::max` on one axis: the larger of the two, and one of the two. */
  function MaxReal(a: real, b: real): (r: real)
    ensures a <= r && b <= r
    ensures r == a || r == b
  {
    if a < b then b else a
  }

  /** Componentwise minimum: the greatest vector below both arguments. */
  function Min(a: V3, b: V3): (r: V3)
    ensures LessEq(r, a) && LessEq(r, b)
    ensures forall c :: LessEq(c, a) && LessEq(c, b) ==> LessEq(c, r)
  {
    V3(MinReal(a.x, b.x), MinReal(a.y, b.y), MinReal(a.z, b.z))
  }

  /** Componentwise maximum: the least vector above both arguments. */
  function Max(a: V3, b: V3): (r: V3)
    ensures LessEq(a, r) && LessEq(b, r)
    ensures forall c :: LessEq(a, c) && LessEq(b, c) ==> LessEq(r, c)
  {
    V3(MaxReal(a.x, b.x), MaxReal(a.y, b.y), MaxReal(a.z, b.z))
  }

  function Add(a: V3, b: V3): V3 {
    V3(a.x + b.x, a.y + b.y, a.z + b.z)
  }

  function Sub(a: V3, b: V3): V3 {
    V3(a.x - b.x, a.y - b.y, a.z - b.z)
  }

  /** The vector with the same value `s` on every axis. */
  function Splat(s: real): V3 {
    V3(s, s, s)
  }

  /** Squared Euclidean norm: never negative. */
  function LengthSquared(v: V3): (r: real)
    ensures r >= 0.0
  {
    v.x * v.x + v.y * v.y + v.z * v.z
  }
}
