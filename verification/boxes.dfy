/**
 * math/Box3.go: an axis-aligned bounding box. The source marks the empty
 * box with Min = +Inf and Max = -Inf on every axis; exact reals have no
 * infinities, so that state is the explicit EmptyBox of Extent. Every
 * operation on it gives what IEEE arithmetic gives on the infinite bounds,
 * where that is finite.
 */
module Boxes {
  import opened Wrappers
  import opened MatrixElements
  import opened Vectors

  datatype Extent = EmptyBox | Box(min: Vec3, max: Vec3) {

    /** Empty: some axis has Max below Min. */
    predicate IsEmpty() {
      match this
      case EmptyBox => true
      case Box(lo, hi) => hi.x < lo.x || hi.y < lo.y || hi.z < lo.z
    }

    /** ContainsPoint: no axis has the point outside [Min, Max]. */
    predicate ContainsPoint(p: Vec3)
      ensures ContainsPoint(p) <==> Box? && min.LessEq(p) && p.LessEq(max)
    {
      match this
      case EmptyBox => false
      case Box(lo, hi) =>
        !(p.x < lo.x || p.x > hi.x || p.y < lo.y || p.y > hi.y || p.z < lo.z || p.z > hi.z)
    }

    /** ContainsBox: every bound of b lies within this box's bounds. */
    predicate ContainsBox(b: Extent) {
      match (this, b)
      case (EmptyBox, EmptyBox) => true
      case (EmptyBox, Box(_, _)) => false
      case (Box(_, _), EmptyBox) => true
      case (Box(lo, hi), Box(blo, bhi)) =>
        lo.x <= blo.x && bhi.x <= hi.x &&
        lo.y <= blo.y && bhi.y <= hi.y &&
        lo.z <= blo.z && bhi.z <= hi.z
    }

    /** IsIntersectionBox: none of the six splitting planes separates the boxes. */
    predicate IntersectsBox(b: Extent) {
      match (this, b)
      case (Box(lo, hi), Box(blo, bhi)) =>
        !(bhi.x < lo.x || blo.x > hi.x || bhi.y < lo.y || blo.y > hi.y || bhi.z < lo.z || blo.z > hi.z)
      case _ => false
    }

    /** ExpandByPoint: Min.Min(p) and Max.Max(p); from the empty box that is [p, p]. */
    function ExpandByPoint(p: Vec3): (r: Extent)
      ensures r.Box? && r.ContainsPoint(p)
      ensures forall q :: ContainsPoint(q) ==> r.ContainsPoint(q)
    {
      match this
      case EmptyBox => Box(p, p)
      case Box(lo, hi) => Box(lo.Min(p), hi.Max(p))
    }

    /** ExpandByVector: Min moves down by v and Max up by v. */
    function ExpandByVector(v: Vec3): (r: Extent)
      ensures Zero.LessEq(v) ==> forall q :: ContainsPoint(q) ==> r.ContainsPoint(q)
    {
      match this
      case EmptyBox => EmptyBox
      case Box(lo, hi) => Box(lo.Sub(v), hi.Add(v))
    }

    /** ExpandByScalar: Min moves down by s and Max up by s on every axis. */
    function ExpandByScalar(s: real): (r: Extent)
      ensures s >= 0.0 ==> forall q :: ContainsPoint(q) ==> r.ContainsPoint(q)
      ensures r == ExpandByVector(Vec3(s, s, s))
    {
      match this
      case EmptyBox => EmptyBox
      case Box(lo, hi) => Box(lo.AddScalar(-s), hi.AddScalar(s))
    }

    /** Intersect: Min.Max(b.Min) and Max.Min(b.Max). */
    function Intersect(b: Extent): (r: Extent)
      ensures forall q :: r.ContainsPoint(q) <==> ContainsPoint(q) && b.ContainsPoint(q)
    {
      match (this, b)
      case (Box(lo, hi), Box(blo, bhi)) => Box(lo.Max(blo), hi.Min(bhi))
      case _ => EmptyBox
    }

    /** Union: Min.Min(b.Min) and Max.Max(b.Max). */
    function Union(b: Extent): (r: Extent)
      ensures forall q :: ContainsPoint(q) || b.ContainsPoint(q) ==> r.ContainsPoint(q)
      ensures r.ContainsBox(this) && r.ContainsBox(b)
    {
      match (this, b)
      case (EmptyBox, _) => b
      case (_, EmptyBox) => this
      case (Box(lo, hi), Box(blo, bhi)) => Box(lo.Min(blo), hi.Max(bhi))
    }

    /** Translate: both bounds move by offset. */
    function Translate(offset: Vec3): (r: Extent)
      ensures forall q: Vec3 :: r.ContainsPoint(q.Add(offset)) <==> ContainsPoint(q)
      ensures r.Size() == Size()
      ensures r.IsEmpty() <==> IsEmpty()
    {
      match this
      case EmptyBox => EmptyBox
      case Box(lo, hi) =>
        var r := Box(lo.Add(offset), hi.Add(offset));
        assert forall q: Vec3 :: r.ContainsPoint(q.Add(offset)) <==> ContainsPoint(q);
        r
    }

    /** Center: the midpoint of Min and Max; the empty box has none (its bounds are infinite). */
    function Center(): (c: Option<Vec3>)
      ensures c.Some? <==> Box?
      ensures !IsEmpty() ==> c.Some? && ContainsPoint(c.value)
    {
      match this
      case EmptyBox => None
      case Box(lo, hi) => Some(lo.Add(hi).Scale(0.5))
    }

    /** Size: Max - Min; the empty box has none. */
    function Size(): (s: Option<Vec3>)
      ensures s.Some? <==> Box?
      ensures Box? ==> (IsEmpty() <==> !Zero.LessEq(s.value))
    {
      match this
      case EmptyBox => None
      case Box(lo, hi) => Some(hi.Sub(lo))
    }

    /** ClampPoint: p clamped to [Min, Max] axis by axis; the empty box gives no finite point. */
    function ClampPoint(p: Vec3): (r: Option<Vec3>)
      ensures r.Some? <==> Box?
      ensures !IsEmpty() ==> r.Some? && ContainsPoint(r.value)
      ensures ContainsPoint(p) ==> r == Some(p)
    {
      match this
      case EmptyBox => None
      case Box(lo, hi) => Some(p.Clamp(lo, hi))
    }
  }

  /** SetFromCenterAndSize: half the size on either side of center. */
  function FromCenterAndSize(center: Vec3, size: Vec3): (r: Extent)
    ensures r.Center() == Some(center)
    ensures r.Size() == Some(size)
  {
    var half := size.Scale(0.5);
    Box(center.Sub(half), center.Add(half))
  }

  /** SetFromPoints: MakeEmpty, then ExpandByPoint with every point in order. */
  function FromPoints(points: seq<Vec3>): (r: Extent)
    ensures |points| == 0 <==> r == EmptyBox
  {
    if |points| == 0 then EmptyBox
    else FromPoints(points[..|points| - 1]).ExpandByPoint(points[|points| - 1])
  }

  /** The eight corners of [lo, hi] in the order ApplyMatrix4 visits them (x, y, z as bits 2, 1, 0). */
  function Corners(lo: Vec3, hi: Vec3): (cs: seq<Vec3>)
    ensures |cs| == 8
  {
    [Vec3(lo.x, lo.y, lo.z), Vec3(lo.x, lo.y, hi.z), Vec3(lo.x, hi.y, lo.z), Vec3(lo.x, hi.y, hi.z),
     Vec3(hi.x, lo.y, lo.z), Vec3(hi.x, lo.y, hi.z), Vec3(hi.x, hi.y, lo.z), Vec3(hi.x, hi.y, hi.z)]
  }

  function TransformAll(points: seq<Vec3>, e: Mat4): (r: seq<Vec3>)
    ensures |r| == |points|
    ensures forall i | 0 <= i < |points| :: r[i] == points[i].ApplyMatrix4(e)
  {
    if |points| == 0 then [] else [points[0].ApplyMatrix4(e)] + TransformAll(points[1..], e)
  }

  /** ApplyMatrix4: the box refitted around the eight transformed corners. */
  function Transformed(b: Extent, e: Mat4): (r: Extent)
    requires b.Box?
    ensures r.Box?
  {
    FromPoints(TransformAll(Corners(b.min, b.max), e))
  }

  /** MakeEmpty yields a box that is empty and contains no point. */
  lemma EmptyBoxContainsNothing(p: Vec3)
    ensures EmptyBox.IsEmpty() && !EmptyBox.ContainsPoint(p)
  {
  }

  /** A box is empty exactly when it contains no point. */
  lemma EmptyIffNoPoint(b: Extent)
    ensures b.IsEmpty() <==> forall q :: !b.ContainsPoint(q)
  {
    if !b.IsEmpty() {
      assert b.ContainsPoint(b.min);
    }
  }

  /** SetFromPoints contains every point, and its bounds are the componentwise minimum and maximum. */
  lemma {:induction false} FromPointsBounds(points: seq<Vec3>)
    requires |points| > 0
    ensures FromPoints(points).Box?
    ensures forall i | 0 <= i < |points| :: FromPoints(points).ContainsPoint(points[i])
    ensures exists i | 0 <= i < |points| :: FromPoints(points).min.x == points[i].x
    ensures exists i | 0 <= i < |points| :: FromPoints(points).min.y == points[i].y
    ensures exists i | 0 <= i < |points| :: FromPoints(points).min.z == points[i].z
    ensures exists i | 0 <= i < |points| :: FromPoints(points).max.x == points[i].x
    ensures exists i | 0 <= i < |points| :: FromPoints(points).max.y == points[i].y
    ensures exists i | 0 <= i < |points| :: FromPoints(points).max.z == points[i].z
  {
    var n := |points| - 1;
    var init := points[..n];
    if n == 0 {
      assert FromPoints(points) == Box(points[0], points[0]);
    } else {
      FromPointsBounds(init);
      var b := FromPoints(init);
      var r := FromPoints(points);
      assert r == b.ExpandByPoint(points[n]);
      forall i | 0 <= i < |points|
        ensures r.ContainsPoint(points[i])
      {
        if i < n {
          assert init[i] == points[i];
        }
      }
      var ix :| 0 <= ix < n && b.min.x == init[ix].x;
      var iy :| 0 <= iy < n && b.min.y == init[iy].y;
      var iz :| 0 <= iz < n && b.min.z == init[iz].z;
      var jx :| 0 <= jx < n && b.max.x == init[jx].x;
      var jy :| 0 <= jy < n && b.max.y == init[jy].y;
      var jz :| 0 <= jz < n && b.max.z == init[jz].z;
      assert r.min.x == points[ix].x || r.min.x == points[n].x;
      assert r.min.y == points[iy].y || r.min.y == points[n].y;
      assert r.min.z == points[iz].z || r.min.z == points[n].z;
      assert r.max.x == points[jx].x || r.max.x == points[n].x;
      assert r.max.y == points[jy].y || r.max.y == points[n].y;
      assert r.max.z == points[jz].z || r.max.z == points[n].z;
    }
  }

  /** Every transformed corner lies in the box ApplyMatrix4 produces. */
  lemma TransformedContainsCorners(b: Extent, e: Mat4)
    requires b.Box?
    ensures forall c | c in Corners(b.min, b.max) :: Transformed(b, e).ContainsPoint(c.ApplyMatrix4(e))
  {
    var ts := TransformAll(Corners(b.min, b.max), e);
    FromPointsBounds(ts);
    forall c | c in Corners(b.min, b.max)
      ensures Transformed(b, e).ContainsPoint(c.ApplyMatrix4(e))
    {
      var i :| 0 <= i < 8 && Corners(b.min, b.max)[i] == c;
      assert ts[i] == c.ApplyMatrix4(e);
    }
  }

  /** With the identity elements, the refitted corners give back a non-empty box unchanged. */
  lemma TransformedByIdentity(b: Extent)
    requires b.Box? && !b.IsEmpty()
    ensures Transformed(b, Identity4()) == b
  {
    var cs := Corners(b.min, b.max);
    var ts := TransformAll(cs, Identity4());
    forall i | 0 <= i < 8
      ensures ts[i] == cs[i]
    {
      ApplyIdentity(cs[i]);
    }
    assert ts == cs;
    var lo, hi := b.min, b.max;
    assert cs[..1] == [lo];
    assert FromPoints(cs[..1]) == Box(lo, lo);
    assert cs[..8] == cs;
    FoldCorners(lo, hi);
  }

  lemma FoldCorners(lo: Vec3, hi: Vec3)
    requires lo.LessEq(hi)
    ensures FromPoints(Corners(lo, hi)) == Box(lo, hi)
  {
    var cs := Corners(lo, hi);
    assert cs[..1] == [cs[0]];
    assert FromPoints(cs[..1]) == Box(lo, lo);
    assert cs[..2] == cs[..1] + [cs[1]];
    assert FromPoints(cs[..2]) == Box(lo, Vec3(lo.x, lo.y, hi.z));
    assert cs[..3] == cs[..2] + [cs[2]];
    assert FromPoints(cs[..3]) == Box(lo, Vec3(lo.x, hi.y, hi.z));
    assert cs[..4] == cs[..3] + [cs[3]];
    assert FromPoints(cs[..4]) == Box(lo, Vec3(lo.x, hi.y, hi.z));
    assert cs[..5] == cs[..4] + [cs[4]];
    assert FromPoints(cs[..5]) == Box(lo, hi);
    assert cs[..6] == cs[..5] + [cs[5]];
    assert FromPoints(cs[..6]) == Box(lo, hi);
    assert cs[..7] == cs[..6] + [cs[6]];
    assert FromPoints(cs[..7]) == Box(lo, hi);
    assert cs[..8] == cs;
  }

  /** IsIntersectionBox does not depend on the order of the boxes. */
  lemma IntersectsSymmetric(a: Extent, b: Extent)
    ensures a.IntersectsBox(b) <==> b.IntersectsBox(a)
  {
  }

  /** A box with a common point is never rejected, and a non-empty contained box always intersects. */
  lemma IntersectsWhenSharingPoint(a: Extent, b: Extent, q: Vec3)
    ensures a.ContainsPoint(q) && b.ContainsPoint(q) ==> a.IntersectsBox(b)
    ensures a.ContainsBox(b) && !b.IsEmpty() ==> a.IntersectsBox(b)
  {
  }

  /** ContainsBox means every point of the inner box is a point of the outer one. */
  lemma ContainsBoxContainsPoints(a: Extent, b: Extent, q: Vec3)
    requires a.ContainsBox(b)
    ensures b.ContainsPoint(q) ==> a.ContainsPoint(q)
  {
  }

  class Box3 {
    var extent: Extent

    /** NewDefaultBox3: the empty box. */
    constructor Default()
      ensures extent == EmptyBox
    {
      extent := EmptyBox;
    }

    /** NewBox3. */
    constructor (min: Vec3, max: Vec3)
      ensures extent == Box(min, max)
    {
      extent := Box(min, max);
    }

    method Set(min: Vec3, max: Vec3)
      modifies this
      ensures extent == Box(min, max)
    {
      extent := Box(min, max);
    }

    method SetFromPoints(points: seq<Vec3>)
      modifies this
      ensures extent == FromPoints(points)
    {
      MakeEmpty();
      for i := 0 to |points|
        invariant extent == FromPoints(points[..i])
      {
        assert points[..i + 1][..i] == points[..i];
        ExpandByPoint(points[i]);
      }
      assert points[..|points|] == points;
    }

    method SetFromCenterAndSize(center: Vec3, size: Vec3)
      modifies this
      ensures extent == FromCenterAndSize(center, size)
    {
      var halfSize := size.Scale(0.5);
      extent := Box(center.Sub(halfSize), center.Add(halfSize));
    }

    method Clone() returns (b: Box3)
      ensures fresh(b) && b.extent == extent
    {
      b := new Box3.Default();
      b.Copy(this);
    }

    method Copy(box: Box3)
      modifies this
      ensures extent == old(box.extent)
      ensures Equals(box)
    {
      extent := box.extent;
    }

    method MakeEmpty()
      modifies this
      ensures extent == EmptyBox
    {
      extent := EmptyBox;
    }

    predicate Empty()
      reads this
    {
      extent.IsEmpty()
    }

    function Center(): Option<Vec3>
      reads this
    {
      extent.Center()
    }

    function Size(): Option<Vec3>
      reads this
    {
      extent.Size()
    }

    method ExpandByPoint(point: Vec3)
      modifies this
      ensures extent == old(extent).ExpandByPoint(point)
    {
      extent := match extent
        case EmptyBox => Box(point, point)
        case Box(lo, hi) => Box(lo.Min(point), hi.Max(point));
    }

    method ExpandByVector(vector: Vec3)
      modifies this
      ensures extent == old(extent).ExpandByVector(vector)
    {
      if extent.Box? {
        extent := Box(extent.min.Sub(vector), extent.max.Add(vector));
      }
    }

    method ExpandByScalar(scalar: real)
      modifies this
      ensures extent == old(extent).ExpandByScalar(scalar)
    {
      if extent.Box? {
        extent := Box(extent.min.AddScalar(-scalar), extent.max.AddScalar(scalar));
      }
    }

    predicate ContainsPoint(point: Vec3)
      reads this
    {
      extent.ContainsPoint(point)
    }

    predicate ContainsBox(box: Box3)
      reads this, box
    {
      extent.ContainsBox(box.extent)
    }

    predicate IsIntersectionBox(box: Box3)
      reads this, box
    {
      extent.IntersectsBox(box.extent)
    }

    function ClampPoint(point: Vec3): Option<Vec3>
      reads this
    {
      extent.ClampPoint(point)
    }

    method Intersect(box: Box3)
      modifies this
      ensures extent == old(extent).Intersect(old(box.extent))
    {
      extent := extent.Intersect(box.extent);
    }

    method Union(box: Box3)
      modifies this
      ensures extent == old(extent).Union(old(box.extent))
    {
      extent := extent.Union(box.extent);
    }

    /** ApplyMatrix4: transform the eight corners, then SetFromPoints on them. */
    method ApplyMatrix4(e: Mat4)
      requires extent.Box?
      modifies this
      ensures extent == Transformed(old(extent), e)
    {
      var lo, hi := extent.min, extent.max;
      var points := TransformAll(Corners(lo, hi), e);
      MakeEmpty();
      SetFromPoints(points);
    }

    method Translate(offset: Vec3)
      modifies this
      ensures extent == old(extent).Translate(offset)
    {
      if extent.Box? {
        extent := Box(extent.min.Add(offset), extent.max.Add(offset));
      }
    }

    predicate Equals(box: Box3)
      reads this, box
      ensures Equals(box) <==> extent == box.extent
    {
      box.extent == extent
    }
  }
}
