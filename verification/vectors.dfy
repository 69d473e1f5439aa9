/**
 * math/Vector2.go and math/Vector3.go: component algebra on values (Vec2,
 * Vec3) and the in-place API of the Vector2 and Vector3 objects, whose
 * methods are specified by those value functions.
 */
module Vectors {
  import opened MatrixElements
  import MathUtils

  datatype Vec2 = Vec2(x: real, y: real)

  datatype Vec3 = Vec3(x: real, y: real, z: real) {

    /** GetComponent for an index the source accepts. */
    function Component(index: int): real
      requires 0 <= index < 3
    {
      if index == 0 then x else if index == 1 then y else z
    }

    /** SetComponent for an index the source accepts. */
    function WithComponent(index: int, value: real): (r: Vec3)
      requires 0 <= index < 3
      ensures r.Component(index) == value
      ensures forall j | 0 <= j < 3 && j != index :: r.Component(j) == Component(j)
    {
      if index == 0 then Vec3(value, y, z)
      else if index == 1 then Vec3(x, value, z)
      else Vec3(x, y, value)
    }

    function Add(b: Vec3): (r: Vec3)
      ensures b == Vec3(0.0, 0.0, 0.0) ==> r == this
    {
      Vec3(x + b.x, y + b.y, z + b.z)
    }

    function AddScalar(s: real): (r: Vec3)
      ensures s == 0.0 ==> r == this
    {
      Vec3(x + s, y + s, z + s)
    }

    function Sub(b: Vec3): (r: Vec3)
      ensures r.Add(b) == this
      ensures b.Add(r) == this
    {
      Vec3(x - b.x, y - b.y, z - b.z)
    }

    function SubScalar(s: real): (r: Vec3)
      ensures r.AddScalar(s) == this
    {
      Vec3(x - s, y - s, z - s)
    }

    /** Componentwise product (Multiply, MultiplyVectors). */
    function Mul(b: Vec3): (r: Vec3)
      ensures b == Vec3(1.0, 1.0, 1.0) ==> r == this
      ensures b == Vec3(0.0, 0.0, 0.0) ==> r == b
    {
      Vec3(x * b.x, y * b.y, z * b.z)
    }

    /** MultiplyScalar. */
    function Scale(s: real): (r: Vec3)
      ensures r == Mul(Vec3(s, s, s))
    {
      Vec3(x * s, y * s, z * s)
    }

    /** Each component becomes the smaller of the two. */
    function Min(b: Vec3): (r: Vec3)
      ensures r.x <= x && r.x <= b.x && (r.x == x || r.x == b.x)
      ensures r.y <= y && r.y <= b.y && (r.y == y || r.y == b.y)
      ensures r.z <= z && r.z <= b.z && (r.z == z || r.z == b.z)
    {
      Vec3(if x < b.x then x else b.x, if y < b.y then y else b.y, if z < b.z then z else b.z)
    }

    /** Each component becomes the larger of the two. */
    function Max(b: Vec3): (r: Vec3)
      ensures r.x >= x && r.x >= b.x && (r.x == x || r.x == b.x)
      ensures r.y >= y && r.y >= b.y && (r.y == y || r.y == b.y)
      ensures r.z >= z && r.z >= b.z && (r.z == z || r.z == b.z)
    {
      Vec3(if x > b.x then x else b.x, if y > b.y then y else b.y, if z > b.z then z else b.z)
    }

    /** Clamp(min, max): math.Max(min, math.Min(max, v)) on every axis. */
    function Clamp(lo: Vec3, hi: Vec3): (r: Vec3)
      ensures lo.LessEq(hi) ==> lo.LessEq(r) && r.LessEq(hi)
      ensures lo.LessEq(this) && LessEq(hi) ==> r == this
    {
      Vec3(MathUtils.Clamp(x, lo.x, hi.x), MathUtils.Clamp(y, lo.y, hi.y), MathUtils.Clamp(z, lo.z, hi.z))
    }

    /** Componentwise <=. */
    predicate LessEq(b: Vec3) {
      x <= b.x && y <= b.y && z <= b.z
    }

    function Negate(): Vec3 {
      Vec3(-x, -y, -z)
    }

    function Dot(b: Vec3): real {
      x * b.x + y * b.y + z * b.z
    }

    function LengthSq(): (r: real)
      ensures r == Dot(this)
      ensures r >= 0.0
    {
      SumOfSquares(x, y, z);
      x * x + y * y + z * z
    }

    function Cross(b: Vec3): Vec3 {
      Vec3(y * b.z - z * b.y, z * b.x - x * b.z, x * b.y - y * b.x)
    }

    function DistanceToSquared(b: Vec3): (r: real)
      ensures r == Sub(b).LengthSq()
      ensures r >= 0.0
    {
      var dx, dy, dz := x - b.x, y - b.y, z - b.z;
      SumOfSquares(dx, dy, dz);
      dx * dx + dy * dy + dz * dz
    }

    /** Move toward b by the fraction alpha. */
    function Lerp(b: Vec3, alpha: real): (r: Vec3)
      ensures alpha == 0.0 ==> r == this
      ensures alpha == 1.0 ==> r == b
      ensures r == this.Add(b.Sub(this).Scale(alpha))
    {
      Vec3(x + (b.x - x) * alpha, y + (b.y - y) * alpha, z + (b.z - z) * alpha)
    }

    /** ApplyMatrix3: the 3x3 product with the column-major elements e. */
    function ApplyMatrix3(e: Mat3): Vec3 {
      Vec3(e[0] * x + e[3] * y + e[6] * z,
           e[1] * x + e[4] * y + e[7] * z,
           e[2] * x + e[5] * y + e[8] * z)
    }

    /** ApplyMatrix4: the affine transform of the point (the w row is ignored). */
    function ApplyMatrix4(e: Mat4): Vec3 {
      Vec3(e[0] * x + e[4] * y + e[8] * z + e[12],
           e[1] * x + e[5] * y + e[9] * z + e[13],
           e[2] * x + e[6] * y + e[10] * z + e[14])
    }
  }

  const Zero: Vec3 := Vec3(0.0, 0.0, 0.0)

  lemma SumOfSquares(a: real, b: real, c: real)
    ensures a * a + b * b + c * c >= 0.0
  {
    MathUtils.Square(a);
    MathUtils.Square(b);
    MathUtils.Square(c);
  }

  /** SetFromMatrixPosition: the translation column. */
  function MatrixPosition(e: Mat4): (r: Vec3)
    ensures r == Zero.ApplyMatrix4(e)
  {
    Vec3(e[12], e[13], e[14])
  }

  /** SetFromMatrixColumn(index): the first three rows of column index. */
  function MatrixColumn(e: Mat4, index: int): (r: Vec3)
    requires 0 <= index < 4
    ensures r.x == At(e, 0, index) && r.y == At(e, 1, index) && r.z == At(e, 2, index)
    ensures index == 3 ==> r == MatrixPosition(e)
  {
    var offset := index * 4;
    Vec3(e[offset], e[offset + 1], e[offset + 2])
  }

  /** FromArray: the three slots starting at offset. */
  function ReadVec3(s: seq<real>, offset: int): Vec3
    requires 0 <= offset && offset + 3 <= |s|
  {
    Vec3(s[offset], s[offset + 1], s[offset + 2])
  }

  /** ToArray: overwrite the three slots starting at offset. */
  function WriteVec3(s: seq<real>, offset: int, v: Vec3): (r: seq<real>)
    requires 0 <= offset && offset + 3 <= |s|
    ensures |r| == |s|
    ensures ReadVec3(r, offset) == v
    ensures forall k | 0 <= k < |s| && !(offset <= k < offset + 3) :: r[k] == s[k]
  {
    s[offset := v.x][offset + 1 := v.y][offset + 2 := v.z]
  }

  /** Writing back what was read changes nothing. */
  lemma WriteReadVec3(s: seq<real>, offset: int)
    requires 0 <= offset && offset + 3 <= |s|
    ensures WriteVec3(s, offset, ReadVec3(s, offset)) == s
  {
    var r := WriteVec3(s, offset, ReadVec3(s, offset));
    assert forall k | 0 <= k < |s| :: r[k] == s[k];
  }

  lemma NegateInvolution(a: Vec3)
    ensures a.Negate().Negate() == a
    ensures a.Add(a.Negate()) == Zero
  {
  }

  lemma DotSymmetric(a: Vec3, b: Vec3)
    ensures a.Dot(b) == b.Dot(a)
    ensures a.DistanceToSquared(b) == b.DistanceToSquared(a)
  {
  }

  /** CrossVectors(a, b) == -CrossVectors(b, a), and the product is orthogonal to both. */
  lemma CrossAntiCommutative(a: Vec3, b: Vec3)
    ensures a.Cross(b) == b.Cross(a).Negate()
    ensures a.Cross(b).Dot(a) == 0.0 && a.Cross(b).Dot(b) == 0.0
  {
  }

  lemma CrossSelfIsZero(a: Vec3)
    ensures a.Cross(a) == Zero
  {
  }

  /** The identity elements leave a point where it is. */
  lemma ApplyIdentity(v: Vec3)
    ensures v.ApplyMatrix4(Identity4()) == v
    ensures v.ApplyMatrix3(Identity3()) == v
  {
  }

  /** The translation comes only from elements 12..14. */
  lemma ApplyMatrix4Translation(v: Vec3, e: Mat4)
    ensures v.ApplyMatrix4(e) == v.ApplyMatrix4(e[12 := 0.0][13 := 0.0][14 := 0.0]).Add(MatrixPosition(e))
  {
  }

  /** The x and y components of Vector2 by index. */
  function Component2(v: Vec2, index: int): real
    requires 0 <= index < 2
  {
    if index == 0 then v.x else v.y
  }

  class Vector2 {
    var X: real
    var Y: real

    function Value(): Vec2
      reads this
    {
      Vec2(X, Y)
    }

    /** NewVector2. */
    constructor (x: real, y: real)
      ensures Value() == Vec2(x, y)
    {
      X, Y := x, y;
    }

    /** NewEmptyVector2. */
    constructor Empty()
      ensures Value() == Vec2(0.0, 0.0)
    {
      X, Y := 0.0, 0.0;
    }

    function Width(): real
      reads this
    {
      X
    }

    method SetWidth(value: real)
      modifies this
      ensures Width() == value && Y == old(Y)
    {
      X := value;
    }

    function Height(): real
      reads this
    {
      Y
    }

    method SetHeight(value: real)
      modifies this
      ensures Height() == value && X == old(X)
    {
      Y := value;
    }

    method Set(x: real, y: real)
      modifies this
      ensures GetComponent(0) == x && GetComponent(1) == y
    {
      X, Y := x, y;
    }

    method SetX(x: real)
      modifies this
      ensures Value() == Vec2(x, old(Y))
    {
      X := x;
    }

    method SetY(y: real)
      modifies this
      ensures Value() == Vec2(old(X), y)
    {
      Y := y;
    }

    /** An index other than 0 or 1 is ignored. */
    method SetComponent(index: int, value: real)
      modifies this
      ensures index == 0 ==> Value() == Vec2(value, old(Y))
      ensures index == 1 ==> Value() == Vec2(old(X), value)
      ensures index != 0 && index != 1 ==> Value() == old(Value())
    {
      if index == 0 {
        X := value;
      } else if index == 1 {
        Y := value;
      }
    }

    /** Any index other than 0 or 1 is a fatal error in the source. */
    function GetComponent(index: int): real
      reads this
      requires index == 0 || index == 1
    {
      Component2(Value(), index)
    }

    method Clone() returns (r: Vector2)
      ensures fresh(r) && r.Value() == Value()
    {
      r := new Vector2(X, Y);
    }

    method Copy(v: Vector2)
      modifies this
      ensures Value() == old(v.Value())
    {
      X := v.X;
      Y := v.Y;
    }
  }

  /**
   * The result of Cross(b) run in place: the receiver's own components are
   * saved first, but b's are read after earlier writes, which matters when b
   * is the receiver itself (aliased).
   */
  function CrossInPlace(a: Vec3, b: Vec3, aliased: bool): Vec3 {
    var newX := a.y * b.z - a.z * b.y;
    var b1 := if aliased then Vec3(newX, a.y, a.z) else b;
    var newY := a.z * b1.x - a.x * b1.z;
    var b2 := if aliased then Vec3(newX, newY, a.z) else b;
    var newZ := a.x * b2.y - a.y * b2.x;
    Vec3(newX, newY, newZ)
  }

  /** Without aliasing the in-place Cross is the cross product. */
  lemma CrossInPlaceUnaliased(a: Vec3, b: Vec3)
    ensures CrossInPlace(a, b, false) == a.Cross(b)
  {
  }

  /** v.Cross(v) does not give the zero vector: (1, 0, 1) becomes (0, -1, -1). */
  lemma CrossInPlaceSelf(a: Vec3)
    ensures CrossInPlace(a, a, true) == Vec3(0.0, -(a.x * a.z), -(a.x * a.x * a.z))
    ensures a == Vec3(1.0, 0.0, 1.0) ==> CrossInPlace(a, a, true) != a.Cross(a)
  {
  }

  class Vector3 {
    var X: real
    var Y: real
    var Z: real

    function Value(): Vec3
      reads this
    {
      Vec3(X, Y, Z)
    }

    /** NewVector3. */
    constructor (x: real, y: real, z: real)
      ensures Value() == Vec3(x, y, z)
    {
      X, Y, Z := x, y, z;
    }

    /** NewEmptyVector3. */
    constructor Empty()
      ensures Value() == Zero
    {
      X, Y, Z := 0.0, 0.0, 0.0;
    }

    method Set(x: real, y: real, z: real)
      modifies this
      ensures Value() == Vec3(x, y, z)
    {
      X, Y, Z := x, y, z;
    }

    method SetX(x: real)
      modifies this
      ensures Value() == old(Value()).WithComponent(0, x)
    {
      X := x;
    }

    method SetY(y: real)
      modifies this
      ensures Value() == old(Value()).WithComponent(1, y)
    {
      Y := y;
    }

    method SetZ(z: real)
      modifies this
      ensures Value() == old(Value()).WithComponent(2, z)
    {
      Z := z;
    }

    /** Any index outside 0..2 is a fatal error in the source. */
    method SetComponent(index: int, value: real)
      requires 0 <= index < 3
      modifies this
      ensures Value() == old(Value()).WithComponent(index, value)
      ensures GetComponent(index) == value
    {
      if index == 0 {
        X := value;
      } else if index == 1 {
        Y := value;
      } else {
        Z := value;
      }
    }

    /** Any index outside 0..2 is a fatal error in the source. */
    function GetComponent(index: int): real
      reads this
      requires 0 <= index < 3
    {
      Value().Component(index)
    }

    method Clone() returns (r: Vector3)
      ensures fresh(r) && r.Value() == Value()
    {
      r := new Vector3(X, Y, Z);
    }

    method Copy(other: Vector3)
      modifies this
      ensures Value() == old(other.Value())
      ensures Equals(other)
    {
      X, Y, Z := other.X, other.Y, other.Z;
    }

    method Add(other: Vector3)
      modifies this
      ensures Value() == old(Value()).Add(old(other.Value()))
    {
      X := X + other.X;
      Y := Y + other.Y;
      Z := Z + other.Z;
    }

    method AddScalar(s: real)
      modifies this
      ensures Value() == old(Value()).AddScalar(s)
    {
      X, Y, Z := X + s, Y + s, Z + s;
    }

    /** a and b are passed by value. */
    method AddVectors(a: Vec3, b: Vec3)
      modifies this
      ensures Value() == a.Add(b)
    {
      X, Y, Z := a.x + b.x, a.y + b.y, a.z + b.z;
    }

    method AddScaledVector(v: Vec3, s: real)
      modifies this
      ensures Value() == old(Value()).Add(v.Scale(s))
    {
      X, Y, Z := X + v.x * s, Y + v.y * s, Z + v.z * s;
    }

    method Sub(v: Vec3)
      modifies this
      ensures Value() == old(Value()).Sub(v)
    {
      X, Y, Z := X - v.x, Y - v.y, Z - v.z;
    }

    method SubScalar(s: real)
      modifies this
      ensures Value() == old(Value()).SubScalar(s)
    {
      X, Y, Z := X - s, Y - s, Z - s;
    }

    method SubVectors(a: Vec3, b: Vec3)
      modifies this
      ensures Value() == a.Sub(b)
    {
      X, Y, Z := a.x - b.x, a.y - b.y, a.z - b.z;
    }

    method Multiply(v: Vec3)
      modifies this
      ensures Value() == old(Value()).Mul(v)
    {
      X, Y, Z := X * v.x, Y * v.y, Z * v.z;
    }

    method MultiplyScalar(scalar: real)
      modifies this
      ensures Value() == old(Value()).Scale(scalar)
    {
      X, Y, Z := X * scalar, Y * scalar, Z * scalar;
    }

    method MultiplyVectors(a: Vec3, b: Vec3)
      modifies this
      ensures Value() == a.Mul(b)
    {
      X, Y, Z := a.x * b.x, a.y * b.y, a.z * b.z;
    }

    method ApplyMatrix3(e: Mat3)
      modifies this
      ensures Value() == old(Value()).ApplyMatrix3(e)
    {
      var x, y, z := X, Y, Z;
      X := e[0] * x + e[3] * y + e[6] * z;
      Y := e[1] * x + e[4] * y + e[7] * z;
      Z := e[2] * x + e[5] * y + e[8] * z;
    }

    /** The source copies the matrix's element array before reading it. */
    method ApplyMatrix4(e: Mat4)
      modifies this
      ensures Value() == old(Value()).ApplyMatrix4(e)
    {
      var x, y, z := X, Y, Z;
      X := e[0] * x + e[4] * y + e[8] * z + e[12];
      Y := e[1] * x + e[5] * y + e[9] * z + e[13];
      Z := e[2] * x + e[6] * y + e[10] * z + e[14];
    }

    method Min(v: Vector3)
      modifies this
      ensures Value() == old(Value()).Min(old(v.Value()))
    {
      X := if X < v.X then X else v.X;
      Y := if Y < v.Y then Y else v.Y;
      Z := if Z < v.Z then Z else v.Z;
    }

    method Max(v: Vector3)
      modifies this
      ensures Value() == old(Value()).Max(old(v.Value()))
    {
      X := if X > v.X then X else v.X;
      Y := if Y > v.Y then Y else v.Y;
      Z := if Z > v.Z then Z else v.Z;
    }

    method Clamp(min: Vector3, max: Vector3)
      modifies this
      ensures Value() == old(Value()).Clamp(old(min.Value()), old(max.Value()))
    {
      X := MathUtils.Clamp(X, min.X, max.X);
      Y := MathUtils.Clamp(Y, min.Y, max.Y);
      Z := MathUtils.Clamp(Z, min.Z, max.Z);
    }

    method Negate()
      modifies this
      ensures Value() == old(Value()).Negate()
    {
      X, Y, Z := -X, -Y, -Z;
    }

    function Dot(v: Vector3): (r: real)
      reads this, v
      ensures v == this ==> r == LengthSq()
    {
      Value().Dot(v.Value())
    }

    function LengthSq(): (r: real)
      reads this
      ensures r >= 0.0
    {
      Value().LengthSq()
    }

    method Lerp(v: Vector3, alpha: real)
      modifies this
      ensures Value() == old(Value()).Lerp(old(v.Value()), alpha)
    {
      X := X + (v.X - X) * alpha;
      Y := Y + (v.Y - Y) * alpha;
      Z := Z + (v.Z - Z) * alpha;
    }

    /**
     * SubVectors(v2, v1), then MultiplyScalar(alpha), then Add(v1). When v1
     * is the receiver, the final Add reads the already overwritten receiver.
     */
    method LerpVectors(v1: Vector3, v2: Vector3, alpha: real)
      modifies this
      ensures v1 != this ==> Value() == old(v1.Value()).Lerp(old(v2.Value()), alpha)
      ensures v1 == this ==> Value() == old(v2.Value()).Sub(old(v1.Value())).Scale(alpha).Scale(2.0)
    {
      SubVectors(v2.Value(), v1.Value());
      MultiplyScalar(alpha);
      Add(v1);
    }

    /** In-place cross product; not alias safe, see CrossInPlaceSelf. */
    method Cross(v: Vector3)
      modifies this
      ensures Value() == CrossInPlace(old(Value()), old(v.Value()), v == this)
    {
      var x, y, z := X, Y, Z;
      X := y * v.Z - z * v.Y;
      Y := z * v.X - x * v.Z;
      Z := x * v.Y - y * v.X;
    }

    /** Every operand is read before the first write, so a or b may be the receiver. */
    method CrossVectors(a: Vector3, b: Vector3)
      modifies this
      ensures Value() == old(a.Value()).Cross(old(b.Value()))
    {
      var aX, aY, aZ := a.X, a.Y, a.Z;
      var bX, bY, bZ := b.X, b.Y, b.Z;
      X := aY * bZ - aZ * bY;
      Y := aZ * bX - aX * bZ;
      Z := aX * bY - aY * bX;
    }

    function DistanceToSquared(v: Vector3): (r: real)
      reads this, v
      ensures r >= 0.0
      ensures v == this ==> r == 0.0
    {
      Value().DistanceToSquared(v.Value())
    }

    method SetFromMatrixPosition(e: Mat4)
      modifies this
      ensures Value() == MatrixPosition(e)
    {
      X, Y, Z := e[12], e[13], e[14];
    }

    /** An index outside 0..3 reads past the sixteen elements. */
    method SetFromMatrixColumn(index: int, e: Mat4)
      requires 0 <= index < 4
      modifies this
      ensures Value() == MatrixColumn(e, index)
    {
      var offset := index * 4;
      X, Y, Z := e[offset], e[offset + 1], e[offset + 2];
    }

    predicate Equals(v: Vector3)
      reads this, v
      ensures Equals(v) <==> Value() == v.Value()
    {
      v.X == X && v.Y == Y && v.Z == Z
    }

    method FromArray(a: array<real>, offset: int)
      requires 0 <= offset && offset + 3 <= a.Length
      modifies this
      ensures Value() == ReadVec3(a[..], offset)
    {
      X, Y, Z := a[offset], a[offset + 1], a[offset + 2];
    }

    method ToArray(a: array<real>, offset: int)
      requires 0 <= offset && offset + 3 <= a.Length
      modifies a
      ensures a[..] == WriteVec3(old(a[..]), offset, Value())
    {
      a[offset] := X;
      a[offset + 1] := Y;
      a[offset + 2] := Z;
    }
  }
}
