/**
 * math/Plane.go: the plane of points q with Normal . q + Constant == 0.
 * DistanceToPoint is that expression, a signed distance when the normal
 * has unit length.
 */
module Planes {
  import opened Wrappers
  import opened Vectors
  import opened Spheres
  import opened Lines

  datatype PlaneVal = PlaneVal(normal: Vec3, constant: real) {

    /** The signed distance; the origin is at distance Constant. */
    function DistanceToPoint(p: Vec3): (d: real)
      ensures p == Vec3(0.0, 0.0, 0.0) ==> d == constant
    {
      normal.Dot(p) + constant
    }

    /** DistanceToSphere: the center's distance less the radius. */
    function DistanceToSphere(s: Ball): (d: real)
      ensures s.radius >= 0.0 ==> d <= DistanceToPoint(s.center)
      ensures s.radius == 0.0 ==> d == DistanceToPoint(s.center)
    {
      DistanceToPoint(s.center) - s.radius
    }

    /** Negate: Constant *= -1 and the normal negated, which flips every distance. */
    function Negate(): (r: PlaneVal)
      ensures forall q :: r.DistanceToPoint(q) == -DistanceToPoint(q)
    {
      PlaneVal(normal.Negate(), constant * -1.0)
    }

    /** Translate: Constant -= offset . Normal, so the plane moves by offset. */
    function Translate(offset: Vec3): (r: PlaneVal)
      ensures r.normal == normal
      ensures forall q: Vec3 :: r.DistanceToPoint(q.Add(offset)) == DistanceToPoint(q)
    {
      var r := PlaneVal(normal, constant - offset.Dot(normal));
      assert forall q: Vec3 :: r.DistanceToPoint(q.Add(offset)) == DistanceToPoint(q) by {
        forall q: Vec3 {
          DotOfSum(normal, q, offset);
        }
      }
      r
    }

    /** IsIntersectionLine: the end points lie strictly on opposite sides. */
    predicate IsIntersectionLine(line: Segment) {
      var startSign := DistanceToPoint(line.start);
      var endSign := DistanceToPoint(line.end);
      (startSign < 0.0 && endSign > 0.0) || (endSign < 0.0 && startSign > 0.0)
    }

    /**
     * IntersectLine: the point where the segment meets the plane. A segment
     * parallel to the plane gives its start if that lies on the plane and
     * nothing otherwise; a crossing outside the segment gives nothing.
     */
    function IntersectLine(line: Segment): (r: Option<Vec3>)
      ensures r.Some? ==> DistanceToPoint(r.value) == 0.0
      ensures r.Some? ==> exists t :: 0.0 <= t <= 1.0 && r.value == line.At(t)
      ensures normal.Dot(line.Delta()) == 0.0 ==>
        (r.Some? <==> DistanceToPoint(line.start) == 0.0) && (r.Some? ==> r.value == line.start)
    {
      var direction := line.Delta();
      var denominator := normal.Dot(direction);
      if denominator == 0.0 then
        if DistanceToPoint(line.start) == 0.0 then
          assert line.At(0.0) == line.start;
          Some(line.start)
        else None
      else
        var t := -(line.start.Dot(normal) + constant) / denominator;
        if t < 0.0 || t > 1.0 then None
        else
          CrossingOnPlane(this, line, t);
          Some(direction.Scale(t).Add(line.start))
    }

    /** CoplanarPoint: the normal scaled by -Constant. */
    function CoplanarPoint(): (p: Vec3)
      ensures normal.LengthSq() == 1.0 ==> DistanceToPoint(p) == 0.0
    {
      var p := normal.Scale(-constant);
      DotOfScaled(normal, -constant);
      p
    }
  }

  /** n . (q + o) == n . q + o . n */
  lemma DotOfSum(n: Vec3, q: Vec3, o: Vec3)
    ensures n.Dot(q.Add(o)) == n.Dot(q) + o.Dot(n)
  {
    assert n.x * (q.x + o.x) == n.x * q.x + o.x * n.x;
    assert n.y * (q.y + o.y) == n.y * q.y + o.y * n.y;
    assert n.z * (q.z + o.z) == n.z * q.z + o.z * n.z;
  }

  /** n . (s n) == s (n . n) */
  lemma DotOfScaled(n: Vec3, s: real)
    ensures n.Dot(n.Scale(s)) == s * n.LengthSq()
  {
    assert n.x * (n.x * s) == s * (n.x * n.x);
    assert n.y * (n.y * s) == s * (n.y * n.y);
    assert n.z * (n.z * s) == s * (n.z * n.z);
  }

  /** The crossing parameter IntersectLine computes puts At(t) on the plane. */
  lemma CrossingOnPlane(p: PlaneVal, line: Segment, t: real)
    requires p.normal.Dot(line.Delta()) != 0.0
    requires t == -(line.start.Dot(p.normal) + p.constant) / p.normal.Dot(line.Delta())
    ensures p.DistanceToPoint(line.Delta().Scale(t).Add(line.start)) == 0.0
    ensures line.At(t) == line.Delta().Scale(t).Add(line.start)
  {
    var d := line.Delta();
    var n := p.normal;
    var s := line.start;
    DotSymmetric(s, n);
    assert t * n.Dot(d) == -(n.Dot(s) + p.constant);
    DotOfSum(n, d.Scale(t), s);
    DotOfScaledOther(n, d, t);
  }

  /**
   * A segment that is not parallel to the plane and reaches it at some t in
   * [0, 1] (an end point included) has that point as its intersection.
   */
  lemma {:induction false} CrossingFound(p: PlaneVal, line: Segment, t: real)
    requires p.normal.Dot(line.Delta()) != 0.0
    requires 0.0 <= t <= 1.0 && p.DistanceToPoint(line.At(t)) == 0.0
    ensures p.IntersectLine(line) == Some(line.At(t))
  {
    var n, s, d := p.normal, line.start, line.Delta();
    assert line.At(t) == d.Scale(t).Add(s);
    DotOfSum(n, d.Scale(t), s);
    DotOfScaledOther(n, d, t);
    DotSymmetric(s, n);
    // t (n . d) + n . s + constant == 0 fixes t as the quotient IntersectLine computes
    QuotientOfProduct(t, n.Dot(d), -(s.Dot(n) + p.constant));
  }

  /** t * den == num with den non-zero gives t == num / den. */
  lemma QuotientOfProduct(t: real, den: real, num: real)
    requires den != 0.0 && t * den == num
    ensures t == num / den
  {
  }

  /** n . (t d) == t (n . d) */
  lemma DotOfScaledOther(n: Vec3, d: Vec3, t: real)
    ensures n.Dot(d.Scale(t)) == t * n.Dot(d)
  {
    assert n.x * (d.x * t) == t * (n.x * d.x);
    assert n.y * (d.y * t) == t * (n.y * d.y);
    assert n.z * (d.z * t) == t * (n.z * d.z);
  }

  /** NewDefaultPlane: normal (1, 0, 0) and constant 0. */
  const DefaultPlane: PlaneVal := PlaneVal(Vec3(1.0, 0.0, 0.0), 0.0)

  /** SetFromNormalAndCoplanarPoint: the plane through point with the given normal. */
  function FromNormalAndCoplanarPoint(normal: Vec3, point: Vec3): (r: PlaneVal)
    ensures r.normal == normal
    ensures r.DistanceToPoint(point) == 0.0
  {
    DotSymmetric(normal, point);
    PlaneVal(normal, -point.Dot(normal))
  }

  /** IsIntersectionLine holds exactly when the end distances are non-zero and of opposite sign. */
  lemma IsIntersectionLineSigns(p: PlaneVal, line: Segment)
    ensures p.IsIntersectionLine(line) <==>
      p.DistanceToPoint(line.start) != 0.0 && p.DistanceToPoint(line.end) != 0.0 &&
      (p.DistanceToPoint(line.start) < 0.0 <==> p.DistanceToPoint(line.end) > 0.0)
  {
  }

  /** When IsIntersectionLine holds, IntersectLine finds the crossing point. */
  lemma {:induction false} IntersectionFound(p: PlaneVal, line: Segment)
    requires p.IsIntersectionLine(line)
    ensures p.IntersectLine(line).Some?
  {
    var n, s, d := p.normal, line.start, line.Delta();
    var ds, de := p.DistanceToPoint(s), p.DistanceToPoint(line.end);
    assert line.end == d.Add(s);
    DotOfSum(n, d, s);
    DotSymmetric(s, n);
    // de == n . d + ds, so the denominator n . d == de - ds is non-zero
    var denominator := n.Dot(d);
    assert denominator == de - ds;
    var t := -(s.Dot(n) + p.constant) / denominator;
    assert t == -ds / (de - ds);
    FractionInUnit(ds, de);
  }

  /** For a and b of strictly opposite sign, -a / (b - a) lies in [0, 1]. */
  lemma FractionInUnit(a: real, b: real)
    requires (a < 0.0 && b > 0.0) || (b < 0.0 && a > 0.0)
    ensures 0.0 <= -a / (b - a) <= 1.0
  {
    if a < 0.0 {
      QuotientInUnit(-a, b - a);
    } else {
      assert -a / (b - a) == a / (a - b);
      QuotientInUnit(a, a - b);
    }
  }

  /** 0 <= n <= d with d > 0 gives n / d in [0, 1]. */
  lemma QuotientInUnit(n: real, d: real)
    requires 0.0 <= n <= d && d > 0.0
    ensures 0.0 <= n / d <= 1.0
  {
  }

  /** Negate applied twice gives back the plane. */
  lemma NegateTwice(p: PlaneVal)
    ensures p.Negate().Negate() == p
  {
    Vectors.NegateInvolution(p.normal);
  }

  class Plane {
    var normal: Vec3
    var constant: real

    function Value(): PlaneVal
      reads this
    {
      PlaneVal(normal, constant)
    }

    /** NewDefaultPlane. */
    constructor Default()
      ensures Value() == DefaultPlane
    {
      normal, constant := Vec3(1.0, 0.0, 0.0), 0.0;
    }

    /** NewPlane. */
    constructor (normal: Vec3, constant: real)
      ensures Value() == PlaneVal(normal, constant)
    {
      this.normal, this.constant := normal, constant;
    }

    method Set(normal: Vec3, constant: real)
      modifies this
      ensures Value() == PlaneVal(normal, constant)
    {
      this.normal, this.constant := normal, constant;
    }

    method SetComponents(x: real, y: real, z: real, w: real)
      modifies this
      ensures Value() == PlaneVal(Vec3(x, y, z), w)
    {
      normal, constant := Vec3(x, y, z), w;
    }

    method SetFromNormalAndCoplanarPoint(normal: Vec3, point: Vec3)
      modifies this
      ensures Value() == FromNormalAndCoplanarPoint(normal, point)
    {
      this.normal := normal;
      constant := -point.Dot(this.normal);
    }

    method Clone() returns (p: Plane)
      ensures fresh(p) && p.Value() == Value()
    {
      p := new Plane.Default();
      p.Copy(this);
    }

    method Copy(plane: Plane)
      modifies this
      ensures Value() == old(plane.Value())
      ensures Equals(plane)
    {
      normal, constant := plane.normal, plane.constant;
    }

    method Negate()
      modifies this
      ensures Value() == old(Value()).Negate()
    {
      constant := constant * -1.0;
      normal := normal.Negate();
    }

    function DistanceToPoint(point: Vec3): real
      reads this
    {
      Value().DistanceToPoint(point)
    }

    function DistanceToSphere(sphere: Ball): real
      reads this
    {
      Value().DistanceToSphere(sphere)
    }

    predicate IsIntersectionLine(line: Segment)
      reads this
    {
      Value().IsIntersectionLine(line)
    }

    function IntersectLine(line: Segment): Option<Vec3>
      reads this
    {
      Value().IntersectLine(line)
    }

    function CoplanarPoint(): Vec3
      reads this
    {
      Value().CoplanarPoint()
    }

    method Translate(offset: Vec3)
      modifies this
      ensures Value() == old(Value()).Translate(offset)
    {
      constant := constant - offset.Dot(normal);
    }

    predicate Equals(plane: Plane)
      reads this, plane
      ensures Equals(plane) <==> Value() == plane.Value()
    {
      plane.normal == normal && plane.constant == constant
    }
  }
}
