# BoundingBox3D — a verified model of the 3-D axis-aligned bounding box

This project models `BoundingBox3D`, the axis-aligned bounding box of the
fluid-engine toolkit (`jet` namespace). A box has a lower and an upper corner,
each a 3-vector. Two constructors are modelled. The default one gives the
"empty" sentinel: lower corner +MAX and upper corner −MAX on every axis, where
MAX is the largest finite `double`. The other one builds a box from two corners
given in either order. The box can be copied. It has the closed-interval
queries `overlaps` and `contains`, plus `midPoint` and `diagonalLengthSquared`.
The mutators `reset`, `merge(point)`, `merge(box)` and `expand(delta)` change
the box in place.

The header that implements the box is not part of this model. The behaviour
modelled is the one fixed by the unit tests in
`src/tests/unit_tests/bounding_box3_tests.cpp`, together with the documented
behaviour of `jet::BoundingBox3`: the empty sentinel, order-independent
construction, closed-interval queries and unclamped `expand`.

Files:

- `vector3.dfy` (module `Vector3`): the coordinate type `V3` over mathematical
  reals. It provides componentwise min/max, specified as greatest lower and
  least upper bounds, along with add, subtract and the squared norm.
- `bounding_box3.dfy` (module `BoundingBox3`): the value semantics.
  - The datatype `Bounds` holds the two corners.
  - `MAX` is the exact value of `std::numeric_limits<double>::max()`.
  - Every operation is a function from the old box to the new one. Each is
    specified by what it means: the smallest enclosing box, the centre, the
    growth of each extent, and so on.
  - Lemmas relate the operations to each other.
- `jet.dfy` (module `Jet`): the class `BoundingBox3D` with the two mutable
  fields `lowerCorner` and `upperCorner`.
  - Its constructors set the fields.
  - Its methods `Reset`, `MergePoint`, `MergeBox` and `Expand` update the
    fields in place.
  - Each method's `ensures` ties the new state to the value function of the
    old state. It also states the property callers rely on, for example that
    after `MergePoint(p)` the box contains `p` and everything it contained
    before.
  - The queries are functions that read the fields.
- `bounding_box3_tests.dfy` (module `BoundingBox3Tests`): every unit test
  except `DiagonalLength` (left out, see below) becomes a client method. Each
  expectation of the test is an `assert`, proved from the class's contracts
  and the definitions of its query functions.

## Model

| member | source | states |
|---|---|---|
| Vector3.Min | src/tests/unit_tests/bounding_box3_tests.cpp:24-34 | componentwise minimum is below both vectors and above every common lower bound (greatest lower bound) |
| Vector3.Max | src/tests/unit_tests/bounding_box3_tests.cpp:24-34 | componentwise maximum is above both vectors and below every common upper bound (least upper bound) |
| Vector3.LengthSquared | src/tests/unit_tests/bounding_box3_tests.cpp:134-139 | the squared norm is never negative |
| BoundingBox3.Empty | src/tests/unit_tests/bounding_box3_tests.cpp:10-22 | the default box has lower corner (MAX, MAX, MAX) and upper corner (−MAX, −MAX, −MAX); it is not well formed and contains no point |
| BoundingBox3.FromCorners | src/tests/unit_tests/bounding_box3_tests.cpp:24-34 | the two-corner box is well formed, contains both points, and is enclosed by every box containing both points |
| BoundingBox3.FromCornersSymmetric | src/tests/unit_tests/bounding_box3_tests.cpp:24-34 | the two-corner constructor does not depend on argument order |
| BoundingBox3.FromCornersIsMergedEmpty | src/tests/unit_tests/bounding_box3_tests.cpp:10-34 | for finite points, the two-corner box equals the empty box with both points merged in |
| BoundingBox3.OverlapsSymmetric | src/tests/unit_tests/bounding_box3_tests.cpp:50-82 | `overlaps` is symmetric |
| BoundingBox3.OverlapsIffCommonPoint | src/tests/unit_tests/bounding_box3_tests.cpp:50-82 | for well-formed boxes, `overlaps` holds exactly when the closed boxes share a point; a gap on any single axis means no overlap |
| BoundingBox3.EmptyOverlaps | src/tests/unit_tests/bounding_box3_tests.cpp:50-82 | the empty sentinel overlaps a box exactly when that box reaches −MAX and +MAX on every axis |
| BoundingBox3.Overlaps | src/tests/unit_tests/bounding_box3_tests.cpp:50-82 | the closed-interval test on all three axes: each box's lower corner is below the other's upper corner; `OverlapsIffCommonPoint` characterizes it as sharing a point |
| BoundingBox3.Contains | src/tests/unit_tests/bounding_box3_tests.cpp:84-116 | closed-interval membership on all three axes: lower corner ≤ point ≤ upper corner; `ContainsIffMergeUnchanged` characterizes it as "merging the point changes nothing" |
| BoundingBox3.ContainsIffMergeUnchanged | src/tests/unit_tests/bounding_box3_tests.cpp:84-116 | `contains(p)` holds exactly when merging `p` leaves the box unchanged |
| BoundingBox3.EnclosesIffContainsAll | src/tests/unit_tests/bounding_box3_tests.cpp:84-116 | for a well-formed box, enclosing it is the same as containing every point it contains |
| BoundingBox3.MidPoint | src/tests/unit_tests/bounding_box3_tests.cpp:118-125 | the midpoint is equally far from both corners on every axis, and lies inside a well-formed box |
| BoundingBox3.DiagonalLengthSquared | src/tests/unit_tests/bounding_box3_tests.cpp:134-139 | the squared diagonal is never negative |
| BoundingBox3.DiagonalMonotone | src/tests/unit_tests/bounding_box3_tests.cpp:134-139 | a well-formed box has a squared diagonal no longer than any box enclosing it |
| BoundingBox3.DiagonalOfPoint | src/tests/unit_tests/bounding_box3_tests.cpp:134-139 | a box whose corners coincide has a zero squared diagonal |
| BoundingBox3.MergePoint | src/tests/unit_tests/bounding_box3_tests.cpp:156-171 | merging a point gives a box that contains the point and encloses the old box, and is enclosed by every box that does both |
| BoundingBox3.MergePointIntoEmpty | src/tests/unit_tests/bounding_box3_tests.cpp:156-171 | merging a finite point into the empty box gives the zero-volume box at that point |
| BoundingBox3.MergePointKeepsContents | src/tests/unit_tests/bounding_box3_tests.cpp:156-171 | every point the box contained is still contained after merging a point |
| BoundingBox3.MergeBox | src/tests/unit_tests/bounding_box3_tests.cpp:173-187 | merging boxes gives a box that encloses both, and is enclosed by every box enclosing both (the componentwise union) |
| BoundingBox3.MergeBoxContainsBoth | src/tests/unit_tests/bounding_box3_tests.cpp:173-187 | every point of either box is a point of the merged box |
| BoundingBox3.MergeBoxAlgebra | src/tests/unit_tests/bounding_box3_tests.cpp:173-187 | box merge is commutative, associative and idempotent |
| BoundingBox3.EmptyIsMergeIdentity | src/tests/unit_tests/bounding_box3_tests.cpp:173-187 | the empty box is the identity of box merge, on either side, for finite boxes |
| BoundingBox3.Expand | src/tests/unit_tests/bounding_box3_tests.cpp:190-201 | expanding keeps the midpoint and grows every extent by 2·delta |
| BoundingBox3.ExpandGrows | src/tests/unit_tests/bounding_box3_tests.cpp:190-201 | a non-negative delta gives a box enclosing the old one |
| BoundingBox3.ExpandComposes | src/tests/unit_tests/bounding_box3_tests.cpp:190-201 | expanding by d1 and then by d2 is expanding by d1 + d2 |
| BoundingBox3.ExpandWellFormed | src/tests/unit_tests/bounding_box3_tests.cpp:190-201 | the expanded box is well formed exactly when every old extent is at least −2·delta, so a negative delta can invert the box |
| BoundingBox3.ExpandContains | src/tests/unit_tests/bounding_box3_tests.cpp:190-201 | a point is in the expanded box exactly when it is within delta of the old corners on every axis |
| Jet.BoundingBox3D.constructor | src/tests/unit_tests/bounding_box3_tests.cpp:10-22 | a default-constructed object holds the empty sentinel |
| Jet.BoundingBox3D.FromCorners | src/tests/unit_tests/bounding_box3_tests.cpp:24-34 | the two-corner constructor's fields are the value `BoundingBox3.FromCorners` |
| Jet.BoundingBox3D.Copy | src/tests/unit_tests/bounding_box3_tests.cpp:36-47 | a copy has exactly the corners of its source |
| Jet.BoundingBox3D.Overlaps | src/tests/unit_tests/bounding_box3_tests.cpp:50-82 | the object query is `BoundingBox3.Overlaps` applied to the two objects' `Value()` |
| Jet.BoundingBox3D.Contains | src/tests/unit_tests/bounding_box3_tests.cpp:84-116 | the object query is `BoundingBox3.Contains` applied to `Value()` |
| Jet.BoundingBox3D.MidPoint | src/tests/unit_tests/bounding_box3_tests.cpp:118-125 | the object query is `BoundingBox3.MidPoint` applied to `Value()`, equally far from both corner fields |
| Jet.BoundingBox3D.DiagonalLengthSquared | src/tests/unit_tests/bounding_box3_tests.cpp:134-139 | the object query is `BoundingBox3.DiagonalLengthSquared` applied to `Value()`, never negative |
| Jet.BoundingBox3D.Reset | src/tests/unit_tests/bounding_box3_tests.cpp:141-154 | after `reset` the object holds exactly the default-constructed state |
| Jet.BoundingBox3D.MergePoint | src/tests/unit_tests/bounding_box3_tests.cpp:156-171 | the new corners are the old ones merged with the point; the box now contains the point and everything it contained before |
| Jet.BoundingBox3D.MergeBox | src/tests/unit_tests/bounding_box3_tests.cpp:173-187 | the new corners are the old ones merged with the other box's; the result encloses both, and merging a box with itself changes nothing |
| Jet.BoundingBox3D.Expand | src/tests/unit_tests/bounding_box3_tests.cpp:190-201 | the new corners are the old ones padded by delta; the midpoint does not move |

## Left out

- `diagonalLength` (src/tests/unit_tests/bounding_box3_tests.cpp:127-132) needs a square root of a `double`. Only `diagonalLengthSquared` is modelled.
- IEEE `double` semantics are not modelled. Coordinates are mathematical reals, so there is no rounding, no NaN or infinity, and no overflow. `EXPECT_DOUBLE_EQ`'s tolerance becomes exact equality. Where a `double` would overflow to ±infinity, the model gives a finite real. Three such cases: `DiagonalLengthSquared(Empty())` is 12·MAX² here but +inf in C++; the sum `lowerCorner + upperCorner` inside `midPoint` overflows in C++ when both corners lie near the same extreme, while the model's midpoint stays finite; `expand` by a large delta can leave [−MAX, MAX] here, while a `double` becomes infinite. (The midpoint of the sentinel itself is (0, 0, 0) in both.)
- The header `jet/bounding_box3.h` is not part of this model; its behaviour is taken from the unit tests.
- DiagonalOfPoint: states only that coinciding corners give a zero squared diagonal, not the converse; the solver's non-linear real arithmetic would not reliably prove "a sum of squares is zero only when every term is zero".
- Only the componentwise operations the box uses are modelled from `Vector3D`. Its other internals are not.
- src/jet/private_helpers.h (`throwIfFailed`, the cleanup macros) is Windows error plumbing with no bounding-box logic.
- The gtest macros are not modelled. Each expectation becomes an `assert` in `bounding_box3_tests.dfy`.
- Only the `double` instance `BoundingBox3D`, the one the tests use, is modelled; other coordinate precisions are not.
