/**
 * The unit tests of `BoundingBox3D` except `DiagonalLength`, restated as
 * client methods: every expectation of those tests is an assertion here,
 * proved from the class's contracts and the definitions of its query
 * functions.
 */
module BoundingBox3Tests {
  import opened Vector3
  import opened Jet
  import BoundingBox3

  method Constructors() {
    var box := new BoundingBox3D();
    assert box.lowerCorner == V3(BoundingBox3.MAX, BoundingBox3.MAX, BoundingBox3.MAX);
    assert box.upperCorner == V3(-BoundingBox3.MAX, -BoundingBox3.MAX, -BoundingBox3.MAX);

    var box1 := new BoundingBox3D.FromCorners(V3(-2.0, 3.0, 5.0), V3(4.0, -2.0, 1.0));
    assert box1.lowerCorner == V3(-2.0, -2.0, 1.0);
    assert box1.upperCorner == V3(4.0, 3.0, 5.0);

    var box2 := new BoundingBox3D.Copy(box1);
    assert box2.lowerCorner == V3(-2.0, -2.0, 1.0);
    assert box2.upperCorner == V3(4.0, 3.0, 5.0);
  }

  method Overlaps() {
    var box1 := new BoundingBox3D.FromCorners(V3(-2.0, -2.0, 1.0), V3(4.0, 3.0, 5.0));

    // x-axis is not overlapping
    var box2 := new BoundingBox3D.FromCorners(V3(5.0, 1.0, 3.0), V3(8.0, 2.0, 4.0));
    assert !box1.Overlaps(box2);

    // y-axis is not overlapping
    var box3 := new BoundingBox3D.FromCorners(V3(3.0, 4.0, 3.0), V3(8.0, 6.0, 4.0));
    assert !box1.Overlaps(box3);

    // z-axis is not overlapping
    var box4 := new BoundingBox3D.FromCorners(V3(3.0, 1.0, 6.0), V3(8.0, 2.0, 9.0));
    assert !box1.Overlaps(box4);

    // overlapping
    var box5 := new BoundingBox3D.FromCorners(V3(3.0, 1.0, 3.0), V3(8.0, 2.0, 7.0));
    assert box1.Overlaps(box5);
  }

  method Contains() {
    var box := new BoundingBox3D.FromCorners(V3(-2.0, -2.0, 1.0), V3(4.0, 3.0, 5.0));
    assert !box.Contains(V3(-3.0, 0.0, 4.0));  // x-axis is out
    assert !box.Contains(V3(2.0, 3.5, 4.0));   // y-axis is out
    assert !box.Contains(V3(2.0, 0.0, 0.0));   // z-axis is out
    assert box.Contains(V3(2.0, 0.0, 4.0));
  }

  method MidPoint() {
    var box := new BoundingBox3D.FromCorners(V3(-2.0, -2.0, 1.0), V3(4.0, 3.0, 5.0));
    assert box.MidPoint() == V3(1.0, 0.5, 3.0);
  }

  method DiagonalLengthSquared() {
    var box := new BoundingBox3D.FromCorners(V3(-2.0, -2.0, 1.0), V3(4.0, 3.0, 5.0));
    assert box.DiagonalLengthSquared() == 6.0 * 6.0 + 5.0 * 5.0 + 4.0 * 4.0;
  }

  method Reset() {
    var box := new BoundingBox3D.FromCorners(V3(-2.0, -2.0, 1.0), V3(4.0, 3.0, 5.0));
    box.Reset();
    assert box.lowerCorner == V3(BoundingBox3.MAX, BoundingBox3.MAX, BoundingBox3.MAX);
    assert box.upperCorner == V3(-BoundingBox3.MAX, -BoundingBox3.MAX, -BoundingBox3.MAX);
  }

  method Merge() {
    // Merge with point
    var box := new BoundingBox3D.FromCorners(V3(-2.0, -2.0, 1.0), V3(4.0, 3.0, 5.0));
    box.MergePoint(V3(5.0, 1.0, -1.0));
    assert box.lowerCorner == V3(-2.0, -2.0, -1.0);
    assert box.upperCorner == V3(5.0, 3.0, 5.0);

    // Merge with other box
    var box1 := new BoundingBox3D.FromCorners(V3(-2.0, -2.0, 1.0), V3(4.0, 3.0, 5.0));
    var box2 := new BoundingBox3D.FromCorners(V3(3.0, 1.0, 3.0), V3(8.0, 2.0, 7.0));
    box1.MergeBox(box2);
    assert box1.lowerCorner == V3(-2.0, -2.0, 1.0);
    assert box1.upperCorner == V3(8.0, 3.0, 7.0);
  }

  method Expand() {
    var box := new BoundingBox3D.FromCorners(V3(-2.0, -2.0, 1.0), V3(4.0, 3.0, 5.0));
    box.Expand(3.0);
    assert box.lowerCorner == V3(-5.0, -5.0, -2.0);
    assert box.upperCorner == V3(7.0, 6.0, 8.0);
  }
}
