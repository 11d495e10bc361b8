/**
 * `BoundingBox3D`: the bounding box as an object whose two public corner
 * fields are read directly by callers and updated in place by `reset`,
 * `merge` and `expand`. Each member is specified by the value semantics of
 * module BoundingBox3 applied to the fields.
 */
module Jet {
  import opened Vector3
  import BoundingBox3

  class BoundingBox3D {
    var lowerCorner: V3
    var upperCorner: V3

    /** The current state of the box as a value. */
    function Value(): BoundingBox3.Bounds
      reads this
    {
      BoundingBox3.Bounds(lowerCorner, upperCorner)
    }

    /** `BoundingBox3D()`: the empty sentinel. */
    constructor ()
      ensures Value() == BoundingBox3.Empty()
    {
      lowerCorner := Splat(BoundingBox3.MAX);
      upperCorner := Splat(-BoundingBox3.MAX);
    }

    /** `BoundingBox3D(point1, point2)`: the corners may come in any order. */
    constructor FromCorners(point1: V3, point2: V3)
      ensures Value() == BoundingBox3.FromCorners(point1, point2)
    {
      lowerCorner := Min(point1, point2);
      upperCorner := Max(point1, point2);
    }

    /** Copy construction: a new object with the same corners. */
    constructor Copy(other: BoundingBox3D)
      ensures lowerCorner == other.lowerCorner && upperCorner == other.upperCorner
    {
      lowerCorner := other.lowerCorner;
      upperCorner := other.upperCorner;
    }

    /** `overlaps(other)`: the closed-interval test on the two current values. */
    predicate Overlaps(other: BoundingBox3D)
      reads this, other
      ensures Overlaps(other) <==> BoundingBox3.Overlaps(Value(), other.Value())
    {
      BoundingBox3.Overlaps(Value(), other.Value())
    }

    /** `contains(point)`: the closed-interval membership test on the current value. */
    predicate Contains(point: V3)
      reads this
      ensures Contains(point) <==> BoundingBox3.Contains(Value(), point)
    {
      BoundingBox3.Contains(Value(), point)
    }

    /** `midPoint()`: the centre of the current value, equally far from both corners. */
    function MidPoint(): (r: V3)
      reads this
      ensures r == BoundingBox3.MidPoint(Value())
      ensures Sub(r, lowerCorner) == Sub(upperCorner, r)
    {
      BoundingBox3.MidPoint(Value())
    }

    /** `diagonalLengthSquared()`: the squared diagonal of the current value. */
    function DiagonalLengthSquared(): (r: real)
      reads this
      ensures r == BoundingBox3.DiagonalLengthSquared(Value())
      ensures r >= 0.0
    {
      BoundingBox3.DiagonalLengthSquared(Value())
    }

    /** `reset()`: back to the state of a default-constructed box. */
    method Reset()
      modifies this
      ensures Value() == BoundingBox3.Empty()
    {
      lowerCorner := Splat(BoundingBox3.MAX);
      upperCorner := Splat(-BoundingBox3.MAX);
    }

    /**
     * `merge(point)`: grow to the smallest box that holds the old box and
     * `point`; afterwards the box contains `point` and everything it
     * contained before.
     */
    method MergePoint(point: V3)
      modifies this
      ensures Value() == BoundingBox3.MergePoint(old(Value()), point)
      ensures Contains(point)
      ensures forall q :: BoundingBox3.Contains(old(Value()), q) ==> Contains(q)
    {
      lowerCorner := Min(lowerCorner, point);
      upperCorner := Max(upperCorner, point);
    }

    /**
     * `merge(other)`: grow to the smallest box that encloses both boxes.
     * `other` may be this very box, in which case nothing changes.
     */
    method MergeBox(other: BoundingBox3D)
      modifies this
      ensures Value() == BoundingBox3.MergeBox(old(Value()), old(other.Value()))
      ensures BoundingBox3.Encloses(Value(), old(Value()))
      ensures BoundingBox3.Encloses(Value(), old(other.Value()))
      ensures other == this ==> Value() == old(Value())
    {
      lowerCorner := Min(lowerCorner, other.lowerCorner);
      upperCorner := Max(upperCorner, other.upperCorner);
    }

    /** `expand(delta)`: pad every side by `delta`, keeping the centre. */
    method Expand(delta: real)
      modifies this
      ensures Value() == BoundingBox3.Expand(old(Value()), delta)
      ensures MidPoint() == old(MidPoint())
    {
      lowerCorner := Sub(lowerCorner, Splat(delta));
      upperCorner := Add(upperCorner, Splat(delta));
    }
  }
}
