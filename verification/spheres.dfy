/**
 * math/Sphere.go: a bounding sphere with a center and a radius. Containment
 * and intersection compare squared distances, so they need no square root;
 * SetFromPoints takes one square root at the end, supplied as the parameter
 * sqrt because exact reals have no built-in one.
 */
module Spheres {
  import opened Wrappers
  import opened Vectors
  import opened Boxes
  import MathUtils

  datatype Ball = Ball(center: Vec3, radius: real) {

    /** Empty: a radius that is not positive. */
    predicate IsEmpty() {
      radius <= 0.0
    }

    /** ContainsPoint: the squared distance to the center is at most the squared radius. */
    predicate ContainsPoint(p: Vec3) {
      p.DistanceToSquared(center) <= radius * radius
    }

    /** IntersectsSphere: the squared center distance is at most the squared radius sum. */
    predicate IntersectsSphere(s: Ball)
      ensures s.center == center ==> IntersectsSphere(s)
    {
      var radiusSum := radius + s.radius;
      MathUtils.Square(radiusSum);
      s.center.DistanceToSquared(center) <= radiusSum * radiusSum
    }

    /** GetBoundingBox: Set(center, center), then ExpandByScalar(radius). */
    function BoundingBox(): (b: Extent)
      ensures b == Box(center, center).ExpandByScalar(radius)
    {
      Box(center.AddScalar(-radius), center.AddScalar(radius))
    }

    /** Translate: the center moves by offset and the radius stays. */
    function Translate(offset: Vec3): (s: Ball)
      ensures s.radius == radius
    {
      Ball(center.Add(offset), radius)
    }
  }

  /** A sphere with a non-negative radius lies inside its bounding box, [center - r, center + r] on every axis. */
  lemma BoundingBoxContains(s: Ball, p: Vec3)
    requires s.radius >= 0.0
    ensures s.BoundingBox().Box?
    ensures s.BoundingBox().min == s.center.AddScalar(-s.radius)
    ensures s.BoundingBox().max == s.center.AddScalar(s.radius)
    ensures s.ContainsPoint(p) ==> s.BoundingBox().ContainsPoint(p)
  {
    if s.ContainsPoint(p) {
      var d := p.Sub(s.center);
      var r := s.radius;
      assert d.LengthSq() <= r * r;
      WithinRadius(d.x, d.y, d.z, r);
      WithinRadius(d.y, d.x, d.z, r);
      WithinRadius(d.z, d.x, d.y, r);
    }
  }

  /** Translate keeps the radius, and p is inside before exactly when p + offset is inside after. */
  lemma TranslateContains(s: Ball, offset: Vec3, p: Vec3)
    ensures s.Translate(offset).radius == s.radius
    ensures s.Translate(offset).ContainsPoint(p.Add(offset)) <==> s.ContainsPoint(p)
  {
    assert p.Add(offset).Sub(s.Translate(offset).center) == p.Sub(s.center);
  }

  /** One coordinate of a vector whose squared length is at most r * r lies in [-r, r]. */
  lemma WithinRadius(a: real, b: real, c: real, r: real)
    requires r >= 0.0
    requires a * a + b * b + c * c <= r * r
    ensures -r <= a <= r
  {
    SumOfSquares(0.0, b, c);
    if a > r {
      MulGreater(a, r);
    } else if a < -r {
      MulGreater(-a, r);
    }
  }

  /** For a > r >= 0, a * a > r * r. */
  lemma MulGreater(a: real, r: real)
    requires a > r >= 0.0
    ensures a * a > r * r
  {
    assert a * a - r * r == (a - r) * (a + r);
    assert (a - r) * (a + r) > 0.0 by {
      assert a - r > 0.0 && a + r > 0.0;
    }
  }

  /** The running maximum of the squared distances from center, starting at 0. */
  function MaxDistanceSq(center: Vec3, points: seq<Vec3>): (m: real)
    ensures m >= 0.0
    ensures forall i | 0 <= i < |points| :: center.DistanceToSquared(points[i]) <= m
    ensures |points| > 0 ==> exists i | 0 <= i < |points| :: center.DistanceToSquared(points[i]) == m
  {
    if |points| == 0 then 0.0
    else
      var n := |points| - 1;
      var m := MaxDistanceSq(center, points[..n]);
      var d := center.DistanceToSquared(points[n]);
      assert forall i | 0 <= i < n :: points[..n][i] == points[i];
      if m > d then m else d
  }

  /** The center SetFromPoints uses: the given one, else the center of the points' bounding box. */
  function FittedCenter(points: seq<Vec3>, optionalCenter: Option<Vec3>): (c: Vec3)
    requires |points| > 0 || optionalCenter.Some?
  {
    match optionalCenter
    case Some(c) => c
    case None => FromPoints(points).Center().value
  }

  /** Go's math.Sqrt as a true square root on non-negative reals. */
  ghost predicate IsSqrt(sqrt: real -> real) {
    forall t :: t >= 0.0 ==> sqrt(t) >= 0.0 && sqrt(t) * sqrt(t) == t
  }

  /** The sphere SetFromPoints produces. */
  function Fitted(points: seq<Vec3>, optionalCenter: Option<Vec3>, sqrt: real -> real): (s: Ball)
    requires |points| > 0 || optionalCenter.Some?
    ensures s.center == FittedCenter(points, optionalCenter)
    ensures optionalCenter.Some? ==> s.center == optionalCenter.value
    ensures optionalCenter.None? ==> FromPoints(points).Center() == Some(s.center)
  {
    var c := FittedCenter(points, optionalCenter);
    Ball(c, sqrt(MaxDistanceSq(c, points)))
  }

  /** With an exact square root, the fitted sphere contains every point it was fitted to. */
  lemma FittedContainsAll(points: seq<Vec3>, optionalCenter: Option<Vec3>, sqrt: real -> real)
    requires |points| > 0 || optionalCenter.Some?
    requires IsSqrt(sqrt)
    ensures forall i | 0 <= i < |points| :: Fitted(points, optionalCenter, sqrt).ContainsPoint(points[i])
  {
    var s := Fitted(points, optionalCenter, sqrt);
    var m := MaxDistanceSq(s.center, points);
    assert s.radius * s.radius == m;
    forall i | 0 <= i < |points|
      ensures s.ContainsPoint(points[i])
    {
      DotSymmetric(points[i], s.center);
    }
  }

  /** IntersectsSphere does not depend on the order of the spheres. */
  lemma IntersectsSymmetric(a: Ball, b: Ball)
    ensures a.IntersectsSphere(b) <==> b.IntersectsSphere(a)
  {
    DotSymmetric(a.center, b.center);
    assert b.radius + a.radius == a.radius + b.radius;
  }

  /** Every sphere contains its own center, whatever its radius. */
  lemma ContainsCenter(s: Ball)
    ensures s.ContainsPoint(s.center)
  {
    MathUtils.Square(s.radius);
    assert s.center.DistanceToSquared(s.center) == 0.0;
  }

  class Sphere {
    var center: Vec3
    var radius: real

    function Value(): Ball
      reads this
    {
      Ball(center, radius)
    }

    /** NewDefaultSphere. */
    constructor Default()
      ensures Value() == Ball(Zero, 0.0)
    {
      center, radius := Zero, 0.0;
    }

    /** NewSphere. */
    constructor (center: Vec3, radius: real)
      ensures Value() == Ball(center, radius)
    {
      this.center, this.radius := center, radius;
    }

    method Set(center: Vec3, radius: real)
      modifies this
      ensures Value() == Ball(center, radius)
    {
      this.center, this.radius := center, radius;
    }

    method SetFromPoints(points: seq<Vec3>, optionalCenter: Option<Vec3>, sqrt: real -> real)
      requires |points| > 0 || optionalCenter.Some?
      modifies this
      ensures Value() == Fitted(points, optionalCenter, sqrt)
    {
      if optionalCenter.Some? {
        center := optionalCenter.value;
      } else {
        var box := new Box3.Default();
        box.SetFromPoints(points);
        center := box.Center().value;
      }
      var maxRadiusSq := 0.0;
      for i := 0 to |points|
        invariant maxRadiusSq == MaxDistanceSq(center, points[..i])
      {
        assert points[..i + 1][..i] == points[..i];
        var d := center.DistanceToSquared(points[i]);
        maxRadiusSq := if maxRadiusSq > d then maxRadiusSq else d;
      }
      assert points[..|points|] == points;
      radius := sqrt(maxRadiusSq);
    }

    method Clone() returns (s: Sphere)
      ensures fresh(s) && s.Value() == Value()
    {
      s := new Sphere.Default();
      s.Copy(this);
    }

    method Copy(sphere: Sphere)
      modifies this
      ensures Value() == old(sphere.Value())
      ensures Equals(sphere)
    {
      center, radius := sphere.center, sphere.radius;
    }

    predicate Empty()
      reads this
    {
      Value().IsEmpty()
    }

    predicate ContainsPoint(point: Vec3)
      reads this
    {
      Value().ContainsPoint(point)
    }

    predicate IntersectsSphere(sphere: Sphere)
      reads this, sphere
    {
      Value().IntersectsSphere(sphere.Value())
    }

    method GetBoundingBox(box: Box3)
      modifies box
      ensures box.extent == Value().BoundingBox()
    {
      box.Set(center, center);
      box.ExpandByScalar(radius);
    }

    method Translate(offset: Vec3)
      modifies this
      ensures Value() == old(Value()).Translate(offset)
    {
      center := center.Add(offset);
    }

    predicate Equals(sphere: Sphere)
      reads this, sphere
      ensures Equals(sphere) <==> Value() == sphere.Value()
    {
      sphere.center == center && sphere.radius == radius
    }
  }
}
