/**
 * math/Frustum.go: six planes bounding a view volume. A point is inside
 * when no plane puts it at a negative distance. The planes are stored as
 * values in a fixed array of six. In the source the frustum holds the
 * caller's six Plane pointers, so a later change to one of those planes is
 * seen by the frustum, and Set, Copy and SetFromMatrix write through them;
 * that sharing is not modelled here.
 */
module Frustums {
  import opened MatrixElements
  import opened Vectors
  import opened Boxes
  import opened Spheres
  import opened Planes

  /** IntersectsSphere: no plane has the center further out than the radius. */
  predicate SphereInside(planes: seq<PlaneVal>, s: Ball) {
    forall i | 0 <= i < |planes| :: !(planes[i].DistanceToPoint(s.center) < -s.radius)
  }

  /** ContainsPoint: no plane has the point at a negative distance. */
  predicate PointInside(planes: seq<PlaneVal>, p: Vec3) {
    forall i | 0 <= i < |planes| :: !(planes[i].DistanceToPoint(p) < 0.0)
  }

  /** The corner of [lo, hi] furthest against the normal (p1 in IntersectsBox). */
  function NearCorner(n: Vec3, lo: Vec3, hi: Vec3): Vec3 {
    Vec3(if n.x > 0.0 then lo.x else hi.x,
         if n.y > 0.0 then lo.y else hi.y,
         if n.z > 0.0 then lo.z else hi.z)
  }

  /** The corner of [lo, hi] furthest along the normal (p2 in IntersectsBox, as intended). */
  function FarCorner(n: Vec3, lo: Vec3, hi: Vec3): (p: Vec3)
    ensures lo.LessEq(hi) ==> Box(lo, hi).ContainsPoint(p)
  {
    Vec3(if n.x > 0.0 then hi.x else lo.x,
         if n.y > 0.0 then hi.y else lo.y,
         if n.z > 0.0 then hi.z else lo.z)
  }

  /** p2 exactly as the source picks it: its y coordinate follows the sign of Normal.X. */
  function FarCornerAsWritten(n: Vec3, lo: Vec3, hi: Vec3): Vec3 {
    Vec3(if n.x > 0.0 then hi.x else lo.x,
         if n.x > 0.0 then hi.y else lo.y,
         if n.z > 0.0 then hi.z else lo.z)
  }

  /** A plane rejects the box when both selected corners are at a negative distance. */
  predicate Separates(p: PlaneVal, lo: Vec3, hi: Vec3) {
    p.DistanceToPoint(NearCorner(p.normal, lo, hi)) < 0.0 &&
    p.DistanceToPoint(FarCorner(p.normal, lo, hi)) < 0.0
  }

  predicate SeparatesAsWritten(p: PlaneVal, lo: Vec3, hi: Vec3) {
    p.DistanceToPoint(NearCorner(p.normal, lo, hi)) < 0.0 &&
    p.DistanceToPoint(FarCornerAsWritten(p.normal, lo, hi)) < 0.0
  }

  /** IntersectsBox with the corrected corner choice. */
  predicate BoxInside(planes: seq<PlaneVal>, lo: Vec3, hi: Vec3) {
    forall i | 0 <= i < |planes| :: !Separates(planes[i], lo, hi)
  }

  /** IntersectsBox as the source writes it. */
  predicate BoxInsideAsWritten(planes: seq<PlaneVal>, lo: Vec3, hi: Vec3) {
    forall i | 0 <= i < |planes| :: !SeparatesAsWritten(planes[i], lo, hi)
  }

  /** No point of [lo, hi] has a larger dot product with n than FarCorner. */
  lemma DotBelowFarCorner(n: Vec3, lo: Vec3, hi: Vec3, q: Vec3)
    requires lo.LessEq(q) && q.LessEq(hi)
    ensures n.Dot(q) <= n.Dot(FarCorner(n, lo, hi))
  {
    var f := FarCorner(n, lo, hi);
    assert n.x * q.x <= n.x * f.x by {
      if n.x > 0.0 { assert n.x * (f.x - q.x) >= 0.0; } else { assert (-n.x) * (q.x - f.x) >= 0.0; }
    }
    assert n.y * q.y <= n.y * f.y by {
      if n.y > 0.0 { assert n.y * (f.y - q.y) >= 0.0; } else { assert (-n.y) * (q.y - f.y) >= 0.0; }
    }
    assert n.z * q.z <= n.z * f.z by {
      if n.z > 0.0 { assert n.z * (f.z - q.z) >= 0.0; } else { assert (-n.z) * (q.z - f.z) >= 0.0; }
    }
  }

  /** No point of the box is further along the normal than FarCorner. */
  lemma FarCornerIsFarthest(p: PlaneVal, lo: Vec3, hi: Vec3, q: Vec3)
    requires Box(lo, hi).ContainsPoint(q)
    ensures p.DistanceToPoint(q) <= p.DistanceToPoint(FarCorner(p.normal, lo, hi))
  {
    DotBelowFarCorner(p.normal, lo, hi, q);
  }

  /** With the corrected corners, a rejected box has no point inside the frustum. */
  lemma BoxRejectionSound(planes: seq<PlaneVal>, lo: Vec3, hi: Vec3, q: Vec3)
    requires !BoxInside(planes, lo, hi)
    requires Box(lo, hi).ContainsPoint(q)
    ensures !PointInside(planes, q)
  {
    var i :| 0 <= i < |planes| && Separates(planes[i], lo, hi);
    FarCornerIsFarthest(planes[i], lo, hi, q);
  }

  /** The planes of the counterexample: one slanted plane and five that every point satisfies. */
  const SlantedPlane: PlaneVal := PlaneVal(Vec3(-1.0, 1.0, 0.0), -0.5)
  const OpenPlane: PlaneVal := PlaneVal(Zero, 1.0)
  const UnitMin: Vec3 := Vec3(0.0, 0.0, 0.0)
  const UnitMax: Vec3 := Vec3(1.0, 1.0, 1.0)

  function CounterexamplePlanes(): seq<PlaneVal> {
    [SlantedPlane, OpenPlane, OpenPlane, OpenPlane, OpenPlane, OpenPlane]
  }

  /**
   * The source's IntersectsBox rejects the unit box although the frustum
   * contains its corner (0, 1, 0); the corrected test keeps it.
   */
  lemma AsWrittenRejectsVisibleBox()
    ensures Box(UnitMin, UnitMax).ContainsPoint(Vec3(0.0, 1.0, 0.0))
    ensures PointInside(CounterexamplePlanes(), Vec3(0.0, 1.0, 0.0))
    ensures !BoxInsideAsWritten(CounterexamplePlanes(), UnitMin, UnitMax)
    ensures BoxInside(CounterexamplePlanes(), UnitMin, UnitMax)
  {
    CounterexamplePointInside();
    CounterexampleRejected();
    CounterexampleKept();
  }

  lemma CounterexamplePointInside()
    ensures PointInside(CounterexamplePlanes(), Vec3(0.0, 1.0, 0.0))
  {
    var planes, q := CounterexamplePlanes(), Vec3(0.0, 1.0, 0.0);
    forall i | 0 <= i < |planes|
      ensures !(planes[i].DistanceToPoint(q) < 0.0)
    {
      if i == 0 {
        assert planes[i].DistanceToPoint(q) == 0.5;
      } else {
        assert planes[i] == OpenPlane;
      }
    }
  }

  lemma CounterexampleRejected()
    ensures !BoxInsideAsWritten(CounterexamplePlanes(), UnitMin, UnitMax)
  {
    assert NearCorner(SlantedPlane.normal, UnitMin, UnitMax) == Vec3(1.0, 0.0, 1.0);
    assert FarCornerAsWritten(SlantedPlane.normal, UnitMin, UnitMax) == Vec3(0.0, 0.0, 0.0);
    assert SeparatesAsWritten(CounterexamplePlanes()[0], UnitMin, UnitMax);
  }

  lemma CounterexampleKept()
    ensures BoxInside(CounterexamplePlanes(), UnitMin, UnitMax)
  {
    var planes := CounterexamplePlanes();
    forall i | 0 <= i < |planes|
      ensures !Separates(planes[i], UnitMin, UnitMax)
    {
      if i == 0 {
        assert FarCorner(SlantedPlane.normal, UnitMin, UnitMax) == Vec3(0.0, 1.0, 0.0);
      } else {
        assert planes[i] == OpenPlane;
        assert NearCorner(Zero, UnitMin, UnitMax) == UnitMax;
      }
    }
  }

  /** ContainsPoint(p) is IntersectsSphere of the sphere of radius 0 at p. */
  lemma PointIsZeroSphere(planes: seq<PlaneVal>, p: Vec3)
    ensures PointInside(planes, p) <==> SphereInside(planes, Ball(p, 0.0))
  {
  }

  /** Growing the radius never turns an intersecting sphere into a rejected one. */
  lemma SphereMonotone(planes: seq<PlaneVal>, c: Vec3, r1: real, r2: real)
    requires r1 <= r2
    ensures SphereInside(planes, Ball(c, r1)) ==> SphereInside(planes, Ball(c, r2))
  {
  }

  /** Multiplying a plane by k > 0 (as Normalize does) keeps every sign test of ContainsPoint and IntersectsBox. */
  lemma PositiveRescaleKeepsSigns(p: PlaneVal, k: real, q: Vec3)
    requires k > 0.0
    ensures PlaneVal(p.normal.Scale(k), p.constant * k).DistanceToPoint(q) == k * p.DistanceToPoint(q)
    ensures PlaneVal(p.normal.Scale(k), p.constant * k).DistanceToPoint(q) < 0.0 <==> p.DistanceToPoint(q) < 0.0
  {
    var n := p.normal;
    assert (n.x * k) * q.x == k * (n.x * q.x);
    assert (n.y * k) * q.y == k * (n.y * q.y);
    assert (n.z * k) * q.z == k * (n.z * q.z);
    var d := p.DistanceToPoint(q);
    if d < 0.0 {
      assert k * (-d) > 0.0;
    } else {
      assert k * d >= 0.0;
    }
  }

  /** Row 3 of the matrix plus s times row i, as a plane. */
  function RowPlane(me: Mat4, i: int, s: real): PlaneVal
    requires 0 <= i < 3
  {
    PlaneVal(Vec3(me[3] + s * me[i], me[7] + s * me[i + 4], me[11] + s * me[i + 8]), me[15] + s * me[i + 12])
  }

  /** SetFromMatrix before normalisation: each plane is row 3 minus or plus row 0, 1 or 2. */
  function MatrixPlanes(me: Mat4): (planes: seq<PlaneVal>)
    ensures |planes| == 6
  {
    [RowPlane(me, 0, -1.0), RowPlane(me, 0, 1.0),
     RowPlane(me, 1, 1.0), RowPlane(me, 1, -1.0),
     RowPlane(me, 2, -1.0), RowPlane(me, 2, 1.0)]
  }

  /** Row i of the matrix applied to the homogeneous point (p, 1): a clip-space coordinate. */
  function ClipRow(me: Mat4, i: int, p: Vec3): real
    requires 0 <= i < 4
  {
    me[i] * p.x + me[i + 4] * p.y + me[i + 8] * p.z + me[i + 12]
  }

  /** The plane built from row 3 and s times row i measures w + s * (clip coordinate i). */
  lemma RowPlaneDistance(me: Mat4, i: int, s: real, p: Vec3)
    requires 0 <= i < 3 && (s == 1.0 || s == -1.0)
    ensures RowPlane(me, i, s).DistanceToPoint(p) == ClipRow(me, 3, p) + s * ClipRow(me, i, p)
  {
    assert (me[3] + s * me[i]) * p.x == me[3] * p.x + s * (me[i] * p.x);
    assert (me[7] + s * me[i + 4]) * p.y == me[7] * p.y + s * (me[i + 4] * p.y);
    assert (me[11] + s * me[i + 8]) * p.z == me[11] * p.z + s * (me[i + 8] * p.z);
  }

  /** A point is inside the frustum of a matrix exactly when its clip coordinates satisfy -w <= x, y, z <= w. */
  lemma MatrixPlanesClip(me: Mat4, p: Vec3)
    ensures PointInside(MatrixPlanes(me), p) <==>
      var w := ClipRow(me, 3, p);
      -w <= ClipRow(me, 0, p) <= w && -w <= ClipRow(me, 1, p) <= w && -w <= ClipRow(me, 2, p) <= w
  {
    var planes := MatrixPlanes(me);
    var w, x, y, z := ClipRow(me, 3, p), ClipRow(me, 0, p), ClipRow(me, 1, p), ClipRow(me, 2, p);
    assert planes[0].DistanceToPoint(p) == w - x by { RowPlaneDistance(me, 0, -1.0, p); }
    assert planes[1].DistanceToPoint(p) == w + x by { RowPlaneDistance(me, 0, 1.0, p); }
    assert planes[2].DistanceToPoint(p) == w + y by { RowPlaneDistance(me, 1, 1.0, p); }
    assert planes[3].DistanceToPoint(p) == w - y by { RowPlaneDistance(me, 1, -1.0, p); }
    assert planes[4].DistanceToPoint(p) == w - z by { RowPlaneDistance(me, 2, -1.0, p); }
    assert planes[5].DistanceToPoint(p) == w + z by { RowPlaneDistance(me, 2, 1.0, p); }
    if PointInside(planes, p) {
      assert !(planes[0].DistanceToPoint(p) < 0.0) && !(planes[1].DistanceToPoint(p) < 0.0);
      assert !(planes[2].DistanceToPoint(p) < 0.0) && !(planes[3].DistanceToPoint(p) < 0.0);
      assert !(planes[4].DistanceToPoint(p) < 0.0) && !(planes[5].DistanceToPoint(p) < 0.0);
    }
  }

  class Frustum {
    const planes: array<PlaneVal>

    ghost predicate Valid()
      reads this
    {
      planes.Length == 6
    }

    /** NewFrustum. */
    constructor (p0: PlaneVal, p1: PlaneVal, p2: PlaneVal, p3: PlaneVal, p4: PlaneVal, p5: PlaneVal)
      ensures Valid() && fresh(planes)
      ensures planes[..] == [p0, p1, p2, p3, p4, p5]
    {
      planes := new PlaneVal[6] [p0, p1, p2, p3, p4, p5];
    }

    /** NewDefaultFrustum: six default planes. */
    constructor Default()
      ensures Valid() && fresh(planes)
      ensures planes[..] == seq(6, _ => DefaultPlane)
    {
      planes := new PlaneVal[6] [DefaultPlane, DefaultPlane, DefaultPlane, DefaultPlane, DefaultPlane, DefaultPlane];
    }

    method Set(p0: PlaneVal, p1: PlaneVal, p2: PlaneVal, p3: PlaneVal, p4: PlaneVal, p5: PlaneVal)
      requires Valid()
      modifies planes
      ensures planes[..] == [p0, p1, p2, p3, p4, p5]
    {
      planes[0] := p0;
      planes[1] := p1;
      planes[2] := p2;
      planes[3] := p3;
      planes[4] := p4;
      planes[5] := p5;
    }

    method Clone() returns (f: Frustum)
      requires Valid()
      ensures fresh(f) && fresh(f.planes) && f.Valid()
      ensures f.planes[..] == planes[..]
    {
      f := new Frustum.Default();
      f.Copy(this);
    }

    method Copy(frustum: Frustum)
      requires Valid() && frustum.Valid()
      modifies planes
      ensures planes[..] == old(frustum.planes[..])
    {
      for i := 0 to 6
        invariant forall k | 0 <= k < i :: planes[k] == old(frustum.planes[k])
        invariant forall k | i <= k < 6 :: frustum.planes[k] == old(frustum.planes[k])
      {
        planes[i] := frustum.planes[i];
      }
    }

    method SetFromMatrix(me: Mat4)
      requires Valid()
      modifies planes
      ensures planes[..] == MatrixPlanes(me)
    {
      var me0, me1, me2, me3 := me[0], me[1], me[2], me[3];
      var me4, me5, me6, me7 := me[4], me[5], me[6], me[7];
      var me8, me9, me10, me11 := me[8], me[9], me[10], me[11];
      var me12, me13, me14, me15 := me[12], me[13], me[14], me[15];
      planes[0] := PlaneVal(Vec3(me3 - me0, me7 - me4, me11 - me8), me15 - me12);
      planes[1] := PlaneVal(Vec3(me3 + me0, me7 + me4, me11 + me8), me15 + me12);
      planes[2] := PlaneVal(Vec3(me3 + me1, me7 + me5, me11 + me9), me15 + me13);
      planes[3] := PlaneVal(Vec3(me3 - me1, me7 - me5, me11 - me9), me15 - me13);
      planes[4] := PlaneVal(Vec3(me3 - me2, me7 - me6, me11 - me10), me15 - me14);
      planes[5] := PlaneVal(Vec3(me3 + me2, me7 + me6, me11 + me10), me15 + me14);
    }

    method IntersectsSphere(sphere: Ball) returns (r: bool)
      requires Valid()
      ensures r == SphereInside(planes[..], sphere)
    {
      var center := sphere.center;
      var negRadius := -sphere.radius;
      for i := 0 to 6
        invariant forall k | 0 <= k < i :: !(planes[k].DistanceToPoint(center) < negRadius)
      {
        var distance := planes[i].DistanceToPoint(center);
        if distance < negRadius {
          return false;
        }
      }
      return true;
    }

    /**
     * IntersectsBox, with p2.Y chosen by the sign of Normal.Y. The empty box
     * has Min = +Inf and Max = -Inf, so every d1 is +Inf or NaN and never
     * negative: the source keeps it.
     */
    method IntersectsBox(box: Extent) returns (r: bool)
      requires Valid()
      ensures box.EmptyBox? ==> r
      ensures box.Box? ==> r == BoxInside(planes[..], box.min, box.max)
    {
      if box.EmptyBox? {
        return true;
      }
      var lo, hi := box.min, box.max;
      for i := 0 to 6
        invariant forall k | 0 <= k < i :: !Separates(planes[k], lo, hi)
      {
        var plane := planes[i];
        var n := plane.normal;
        var p1x := if n.x > 0.0 then lo.x else hi.x;
        var p2x := if n.x > 0.0 then hi.x else lo.x;
        var p1y := if n.y > 0.0 then lo.y else hi.y;
        var p2y := if n.y > 0.0 then hi.y else lo.y;
        var p1z := if n.z > 0.0 then lo.z else hi.z;
        var p2z := if n.z > 0.0 then hi.z else lo.z;
        var d1 := plane.DistanceToPoint(Vec3(p1x, p1y, p1z));
        var d2 := plane.DistanceToPoint(Vec3(p2x, p2y, p2z));
        if d1 < 0.0 && d2 < 0.0 {
          return false;
        }
      }
      return true;
    }

    method ContainsPoint(point: Vec3) returns (r: bool)
      requires Valid()
      ensures r == PointInside(planes[..], point)
    {
      for i := 0 to 6
        invariant forall k | 0 <= k < i :: !(planes[k].DistanceToPoint(point) < 0.0)
      {
        if planes[i].DistanceToPoint(point) < 0.0 {
          return false;
        }
      }
      return true;
    }
  }
}
