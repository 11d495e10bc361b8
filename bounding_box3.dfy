/**
 * Value semantics of the 3-D axis-aligned bounding box `BoundingBox3`:
 * a lower and an upper corner, an "empty" sentinel with inverted extreme
 * corners, closed-interval queries, and the merge and expand operations as
 * functions from the old box to the new one. The class in module Jet
 * updates its fields as these functions say.
 */
module BoundingBox3 {
  import opened Vector3

  /**
   * The largest finite `double`, `std::numeric_limits<double>::max()`,
   * written out exactly: (2 - 2^-52) * 2^1023.
   */
  const MAX: real := 179769313486231570814527423731704356798070567525844996598917476803157260780028538760589558632766878171540458953514382464234321326889464182768467546703537516986049910576551282076245490090389328944075868508455133942304583236903222948165808559332123348274797826204144723168738177180919299881250404026184124858368.0

  /** The state of a bounding box: its two corners. */
  datatype Bounds = Bounds(lowerCorner: V3, upperCorner: V3)

  /** Every coordinate of `v` lies within the finite range [-MAX, MAX]. */
  predicate IsFinite(v: V3) {
    -MAX <= v.x <= MAX && -MAX <= v.y <= MAX && -MAX <= v.z <= MAX
  }

  predicate IsFiniteBox(b: Bounds) {
    IsFinite(b.lowerCorner) && IsFinite(b.upperCorner)
  }

  /** The lower corner is below the upper corner on every axis. */
  predicate IsWellFormed(b: Bounds) {
    LessEq(b.lowerCorner, b.upperCorner)
  }

  /** The extent of `outer` includes the extent of `inner` on every axis. */
  predicate Encloses(outer: Bounds, inner: Bounds) {
    LessEq(outer.lowerCorner, inner.lowerCorner) && LessEq(inner.upperCorner, outer.upperCorner)
  }

  /**
   * The default-constructed box: lower corner +MAX and upper corner -MAX on
   * every axis. It is not well formed and contains no point at all.
   */
  function Empty(): (r: Bounds)
    ensures r.lowerCorner == Splat(MAX) && r.upperCorner == Splat(-MAX)
    ensures !IsWellFormed(r)
    ensures forall p :: !Contains(r, p)
  {
    Bounds(Splat(MAX), Splat(-MAX))
  }

  /**
   * The two-corner constructor: the smallest box holding both points,
   * whichever order they come in.
   */
  function FromCorners(point1: V3, point2: V3): (r: Bounds)
    ensures IsWellFormed(r)
    ensures Contains(r, point1) && Contains(r, point2)
    ensures forall c :: Contains(c, point1) && Contains(c, point2) ==> Encloses(c, r)
  {
    Bounds(Min(point1, point2), Max(point1, point2))
  }

  /** Closed-interval intersection on all three axes; touching boxes overlap. */
  predicate Overlaps(a: Bounds, other: Bounds)
    ensures Overlaps(a, other)
        <==> LessEq(a.lowerCorner, other.upperCorner) && LessEq(other.lowerCorner, a.upperCorner)
  {
    && a.lowerCorner.x <= other.upperCorner.x && a.upperCorner.x >= other.lowerCorner.x
    && a.lowerCorner.y <= other.upperCorner.y && a.upperCorner.y >= other.lowerCorner.y
    && a.lowerCorner.z <= other.upperCorner.z && a.upperCorner.z >= other.lowerCorner.z
  }

  /** Closed-interval membership on all three axes; boundary points are inside. */
  predicate Contains(b: Bounds, point: V3)
    ensures Contains(b, point) <==> LessEq(b.lowerCorner, point) && LessEq(point, b.upperCorner)
  {
    && b.lowerCorner.x <= point.x <= b.upperCorner.x
    && b.lowerCorner.y <= point.y <= b.upperCorner.y
    && b.lowerCorner.z <= point.z <= b.upperCorner.z
  }

  /**
   * The centre of the box, (lower + upper) * 0.5: equally far from both
   * corners, and inside the box when it is well formed.
   */
  function MidPoint(b: Bounds): (r: V3)
    ensures Sub(r, b.lowerCorner) == Sub(b.upperCorner, r)
    ensures IsWellFormed(b) ==> Contains(b, r)
  {
    var l, u := b.lowerCorner, b.upperCorner;
    V3((l.x + u.x) * 0.5, (l.y + u.y) * 0.5, (l.z + u.z) * 0.5)
  }

  /** Squared length of the diagonal, the squared norm of upper - lower. */
  function DiagonalLengthSquared(b: Bounds): (r: real)
    ensures r >= 0.0
  {
    LengthSquared(Sub(b.upperCorner, b.lowerCorner))
  }

  /**
   * `merge(point)`: the smallest box that encloses `b` and contains `point`.
   */
  function MergePoint(b: Bounds, point: V3): (r: Bounds)
    ensures Contains(r, point) && Encloses(r, b)
    ensures forall c :: Encloses(c, b) && Contains(c, point) ==> Encloses(c, r)
  {
    Bounds(Min(b.lowerCorner, point), Max(b.upperCorner, point))
  }

  /**
   * `merge(other)`: the smallest box that encloses both boxes.
   */
  function MergeBox(b: Bounds, other: Bounds): (r: Bounds)
    ensures Encloses(r, b) && Encloses(r, other)
    ensures forall c :: Encloses(c, b) && Encloses(c, other) ==> Encloses(c, r)
  {
    Bounds(Min(b.lowerCorner, other.lowerCorner), Max(b.upperCorner, other.upperCorner))
  }

  /**
   * `expand(delta)`: the box keeps its centre and every extent grows by
   * 2 * delta (shrinks, for a negative delta; nothing clamps it).
   */
  function Expand(b: Bounds, delta: real): (r: Bounds)
    ensures MidPoint(r) == MidPoint(b)
    ensures Sub(r.upperCorner, r.lowerCorner)
         == Add(Sub(b.upperCorner, b.lowerCorner), Splat(2.0 * delta))
  {
    Bounds(Sub(b.lowerCorner, Splat(delta)), Add(b.upperCorner, Splat(delta)))
  }

  // ---------------------------------------------------------------------
  // Properties relating the operations
  // ---------------------------------------------------------------------

  /** The constructor does not depend on the order of its arguments. */
  lemma FromCornersSymmetric(point1: V3, point2: V3)
    ensures FromCorners(point1, point2) == FromCorners(point2, point1)
  {
  }

  /**
   * Building a box from two corners is the same as merging both points into
   * the empty box.
   */
  lemma FromCornersIsMergedEmpty(point1: V3, point2: V3)
    requires IsFinite(point1) && IsFinite(point2)
    ensures FromCorners(point1, point2) == MergePoint(MergePoint(Empty(), point1), point2)
  {
  }

  /** Merging a finite point into the empty box gives the zero-volume box at that point. */
  lemma MergePointIntoEmpty(point: V3)
    requires IsFinite(point)
    ensures MergePoint(Empty(), point) == Bounds(point, point)
  {
  }

  /** The empty box is the identity of `merge(other)` on finite boxes, on either side. */
  lemma EmptyIsMergeIdentity(b: Bounds)
    requires IsFiniteBox(b)
    ensures MergeBox(Empty(), b) == b && MergeBox(b, Empty()) == b
  {
  }

  /** Merging a point changes nothing exactly when the box already contains it. */
  lemma ContainsIffMergeUnchanged(b: Bounds, point: V3)
    ensures Contains(b, point) <==> MergePoint(b, point) == b
  {
  }

  /** Merging a point keeps every point the box contained before. */
  lemma MergePointKeepsContents(b: Bounds, point: V3, q: V3)
    requires Contains(b, q)
    ensures Contains(MergePoint(b, point), q)
  {
  }

  /** Every point of either box is a point of the merged box. */
  lemma MergeBoxContainsBoth(b: Bounds, other: Bounds, q: V3)
    requires Contains(b, q) || Contains(other, q)
    ensures Contains(MergeBox(b, other), q)
  {
  }

  /** `merge(other)` is commutative, associative and idempotent. */
  lemma MergeBoxAlgebra(a: Bounds, b: Bounds, c: Bounds)
    ensures MergeBox(a, b) == MergeBox(b, a)
    ensures MergeBox(MergeBox(a, b), c) == MergeBox(a, MergeBox(b, c))
    ensures MergeBox(a, a) == a
  {
  }

  /** For a well-formed box, enclosing it is the same as containing all of its points. */
  lemma EnclosesIffContainsAll(outer: Bounds, inner: Bounds)
    requires IsWellFormed(inner)
    ensures Encloses(outer, inner) <==> (forall p :: Contains(inner, p) ==> Contains(outer, p))
  {
    if forall p :: Contains(inner, p) ==> Contains(outer, p) {
      assert Contains(inner, inner.lowerCorner);
      assert Contains(inner, inner.upperCorner);
    }
  }

  /** `overlaps` is symmetric. */
  lemma OverlapsSymmetric(a: Bounds, b: Bounds)
    ensures Overlaps(a, b) == Overlaps(b, a)
  {
  }

  /**
   * For well-formed boxes, `overlaps` holds exactly when the two boxes share
   * a point (their closed intersection is not empty).
   */
  lemma OverlapsIffCommonPoint(a: Bounds, b: Bounds)
    requires IsWellFormed(a) && IsWellFormed(b)
    ensures Overlaps(a, b) <==> exists p :: Contains(a, p) && Contains(b, p)
  {
    if Overlaps(a, b) {
      var p := Max(a.lowerCorner, b.lowerCorner);
      assert Contains(a, p) && Contains(b, p);
    }
  }

  /**
   * The sentinel overlaps a box only when that box reaches -MAX and +MAX on
   * every axis; in particular it overlaps no box lying strictly inside the
   * finite range.
   */
  lemma EmptyOverlaps(b: Bounds)
    ensures Overlaps(Empty(), b)
        <==> LessEq(b.lowerCorner, Splat(-MAX)) && LessEq(Splat(MAX), b.upperCorner)
  {
  }

  /** A non-negative delta grows the box around the old one. */
  lemma ExpandGrows(b: Bounds, delta: real)
    requires delta >= 0.0
    ensures Encloses(Expand(b, delta), b)
  {
  }

  /** Two expansions are one expansion by the sum of the deltas. */
  lemma ExpandComposes(b: Bounds, delta1: real, delta2: real)
    ensures Expand(Expand(b, delta1), delta2) == Expand(b, delta1 + delta2)
  {
  }

  /**
   * An expanded box is well formed exactly when no extent of the old box is
   * smaller than -2 * delta: a negative delta can invert the bounds.
   */
  lemma ExpandWellFormed(b: Bounds, delta: real)
    ensures IsWellFormed(Expand(b, delta))
        <==> LessEq(Splat(-2.0 * delta), Sub(b.upperCorner, b.lowerCorner))
  {
  }

  /** A point is in the expanded box exactly when it is within `delta` of the box on every axis. */
  lemma ExpandContains(b: Bounds, delta: real, point: V3)
    ensures Contains(Expand(b, delta), point)
        <==> LessEq(Sub(b.lowerCorner, Splat(delta)), point) && LessEq(point, Add(b.upperCorner, Splat(delta)))
  {
  }

  /**
   * The diagonal of a well-formed box is no longer than that of any box
   * enclosing it.
   */
  lemma DiagonalMonotone(outer: Bounds, inner: Bounds)
    requires IsWellFormed(inner) && Encloses(outer, inner)
    ensures DiagonalLengthSquared(inner) <= DiagonalLengthSquared(outer)
  {
  }

  /** A box whose two corners are the same point has a zero diagonal. */
  lemma DiagonalOfPoint(point: V3)
    ensures DiagonalLengthSquared(FromCorners(point, point)) == 0.0
  {
  }
}
