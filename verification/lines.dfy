/**
 * math/Line3.go: a line segment from Start to End, parametrised by t so
 * that t = 0 is Start and t = 1 is End.
 */
module Lines {
  import opened MatrixElements
  import opened Vectors
  import MathUtils

  datatype Segment = Segment(start: Vec3, end: Vec3) {

    /** Delta: End - Start. */
    function Delta(): (d: Vec3)
      ensures start.Add(d) == end
    {
      end.Sub(start)
    }

    /** DistanceSq: the squared length of the segment. */
    function DistanceSq(): (r: real)
      ensures r == Delta().LengthSq()
      ensures r >= 0.0
    {
      DotSymmetric(start, end);
      start.DistanceToSquared(end)
    }

    /** At(t): Delta scaled by t, then moved to Start. */
    function At(t: real): (p: Vec3)
      ensures t == 0.0 ==> p == start
      ensures t == 1.0 ==> p == end
    {
      Delta().Scale(t).Add(start)
    }

    /** Center: the midpoint (Start + End) / 2. */
    function Center(): (c: Vec3)
      ensures c == At(0.5)
    {
      start.Add(end).Scale(0.5)
    }

    /**
     * ClosestPointToPointParameter: the projection of point onto the line,
     * as a parameter, optionally clamped to [0, 1]. The division needs a
     * segment of non-zero length.
     */
    function ClosestPointToPointParameter(point: Vec3, clampToLine: bool): (t: real)
      requires start != end
      ensures clampToLine ==> 0.0 <= t <= 1.0
    {
      var startP := point.Sub(start);
      var startEnd := end.Sub(start);
      var startEnd2 := startEnd.Dot(startEnd);
      PositiveLengthSq(startEnd);
      var t := startEnd.Dot(startP) / startEnd2;
      if clampToLine then MathUtils.Clamp(t, 0.0, 1.0) else t
    }

    /** ApplyMatrix4: both endpoints are transformed independently. */
    function ApplyMatrix4(e: Mat4): (s: Segment)
      ensures s.start == start.ApplyMatrix4(e) && s.end == end.ApplyMatrix4(e)
    {
      Segment(start.ApplyMatrix4(e), end.ApplyMatrix4(e))
    }
  }

  /** A vector other than Zero has a positive squared length. */
  lemma PositiveLengthSq(v: Vec3)
    requires v != Zero
    ensures v.Dot(v) > 0.0
  {
    assert v.x != 0.0 || v.y != 0.0 || v.z != 0.0;
    calc {
      v.Dot(v);
    ==
      v.x * v.x + v.y * v.y + v.z * v.z;
    >  { PositiveSquares(v.x, v.y, v.z); }
      0.0;
    }
  }

  /** A sum of three squares with a non-zero base is positive. */
  lemma PositiveSquares(a: real, b: real, c: real)
    requires a != 0.0 || b != 0.0 || c != 0.0
    ensures a * a + b * b + c * c > 0.0
  {
    MathUtils.Square(a);
    MathUtils.Square(b);
    MathUtils.Square(c);
  }


  /** The polynomial step: d . (p - t d) == d . p - t (d . d). */
  lemma DotOfResidual(d: Vec3, p: Vec3, t: real)
    ensures d.Dot(p.Sub(d.Scale(t))) == d.Dot(p) - t * d.Dot(d)
  {
    assert d.x * (p.x - d.x * t) == d.x * p.x - t * (d.x * d.x);
    assert d.y * (p.y - d.y * t) == d.y * p.y - t * (d.y * d.y);
    assert d.z * (p.z - d.z * t) == d.z * p.z - t * (d.z * d.z);
  }

  /**
   * Without clamping, the parameter picks the point of the line closest to
   * point: the offset from At(t) to point is orthogonal to Delta.
   */
  lemma ClosestPointIsProjection(s: Segment, point: Vec3)
    requires s.start != s.end
    ensures s.Delta().Dot(point.Sub(s.At(s.ClosestPointToPointParameter(point, false)))) == 0.0
  {
    var d := s.Delta();
    var p := point.Sub(s.start);
    var t := s.ClosestPointToPointParameter(point, false);
    assert d != Zero;
    PositiveLengthSq(d);
    assert t == d.Dot(p) / d.Dot(d);
    assert t * d.Dot(d) == d.Dot(p);
    assert point.Sub(s.At(t)) == p.Sub(d.Scale(t));
    DotOfResidual(d, p, t);
  }

  /** Center is the point halfway along, equally far from both ends. */
  lemma CenterIsMidpoint(s: Segment)
    ensures s.Center().Sub(s.start) == s.end.Sub(s.Center())
  {
  }

  class Line3 {
    var start: Vec3
    var end: Vec3

    function Value(): Segment
      reads this
    {
      Segment(start, end)
    }

    /** NewDefaultLine3: both ends at the origin. */
    constructor Default()
      ensures Value() == Segment(Zero, Zero)
    {
      start, end := Zero, Zero;
    }

    /** NewLine3. */
    constructor (start: Vec3, end: Vec3)
      ensures Value() == Segment(start, end)
    {
      this.start, this.end := start, end;
    }

    method Set(start: Vec3, end: Vec3)
      modifies this
      ensures Value() == Segment(start, end)
    {
      this.start, this.end := start, end;
    }

    method Clone() returns (l: Line3)
      ensures fresh(l) && l.Value() == Value()
    {
      l := new Line3.Default();
      l.Copy(this);
    }

    method Copy(line: Line3)
      modifies this
      ensures Value() == old(line.Value())
      ensures Equals(line)
    {
      start, end := line.start, line.end;
    }

    function Center(): Vec3
      reads this
    {
      Value().Center()
    }

    function Delta(): Vec3
      reads this
    {
      Value().Delta()
    }

    function DistanceSq(): real
      reads this
    {
      Value().DistanceSq()
    }

    function At(t: real): Vec3
      reads this
    {
      Value().At(t)
    }

    function ClosestPointToPointParameter(point: Vec3, clampToLine: bool): real
      requires start != end
      reads this
    {
      Value().ClosestPointToPointParameter(point, clampToLine)
    }

    method ApplyMatrix4(e: Mat4)
      modifies this
      ensures Value() == old(Value()).ApplyMatrix4(e)
    {
      start := start.ApplyMatrix4(e);
      end := end.ApplyMatrix4(e);
    }

    predicate Equals(line: Line3)
      reads this, line
      ensures Equals(line) <==> Value() == line.Value()
    {
      line.start == start && line.end == end
    }
  }
}
