/**
 * math/Quaternion.go: the Hamilton product and conjugate on values (Quat),
 * and the Quaternion object whose mutators update X, Y, Z, W in place and
 * then fire its onChange callback. The callback itself is foreign code; the
 * model counts its invocations in `changes`.
 */
module Quaternions {
  import MathUtils

  datatype Quat = Quat(x: real, y: real, z: real, w: real) {

    /** MultiplyQuaternions(this, b). */
    function Mul(b: Quat): Quat {
      Quat(x * b.w + w * b.x + y * b.z - z * b.y,
           y * b.w + w * b.y + z * b.x - x * b.z,
           z * b.w + w * b.z + x * b.y - y * b.x,
           w * b.w - x * b.x - y * b.y - z * b.z)
    }

    function Conjugate(): Quat {
      Quat(-x, -y, -z, w)
    }

    function Dot(b: Quat): real {
      x * b.x + y * b.y + z * b.z + w * b.w
    }

    function LengthSq(): (r: real)
      ensures r == Dot(this)
      ensures r >= 0.0
    {
      MathUtils.Square(x);
      MathUtils.Square(y);
      MathUtils.Square(z);
      MathUtils.Square(w);
      x * x + y * y + z * z + w * w
    }

    function Scale(s: real): Quat {
      Quat(x * s, y * s, z * s, w * s)
    }
  }

  /** NewEmptyQuaternion: no rotation. */
  const Identity: Quat := Quat(0.0, 0.0, 0.0, 1.0)

  /** The empty quaternion is a two-sided identity of the product. */
  lemma MulIdentity(q: Quat)
    ensures Identity.Mul(q) == q
    ensures q.Mul(Identity) == q
  {
  }

  lemma ConjugateInvolution(q: Quat)
    ensures q.Conjugate().Conjugate() == q
    ensures q.Conjugate().LengthSq() == q.LengthSq()
  {
  }

  /** q times its conjugate is the real quaternion |q|^2. */
  lemma MulConjugate(q: Quat)
    ensures q.Mul(q.Conjugate()) == Quat(0.0, 0.0, 0.0, q.LengthSq())
  {
  }

  lemma DotSymmetric(a: Quat, b: Quat)
    ensures a.Dot(b) == b.Dot(a)
  {
  }

  /** SetFromEuler's product formulas for each rotation order, from the half-angle cosines c and sines s. */
  function FromEuler(c1: real, c2: real, c3: real, s1: real, s2: real, s3: real, order: string, old_: Quat): (r: Quat)
    ensures order !in {"XYZ", "YXZ", "ZXY", "ZYX", "YZX", "XZY"} ==> r == old_
    ensures (c1 == 1.0 && c2 == 1.0 && c3 == 1.0 && s1 == 0.0 && s2 == 0.0 && s3 == 0.0 &&
             order in {"XYZ", "YXZ", "ZXY", "ZYX", "YZX", "XZY"}) ==> r == Identity
  {
    if order == "XYZ" then
      Quat(s1 * c2 * c3 + c1 * s2 * s3, c1 * s2 * c3 - s1 * c2 * s3,
           c1 * c2 * s3 + s1 * s2 * c3, c1 * c2 * c3 - s1 * s2 * s3)
    else if order == "YXZ" then
      Quat(s1 * c2 * c3 + c1 * s2 * s3, c1 * s2 * c3 - s1 * c2 * s3,
           c1 * c2 * s3 - s1 * s2 * c3, c1 * c2 * c3 + s1 * s2 * s3)
    else if order == "ZXY" then
      Quat(s1 * c2 * c3 - c1 * s2 * s3, c1 * s2 * c3 + s1 * c2 * s3,
           c1 * c2 * s3 + s1 * s2 * c3, c1 * c2 * c3 - s1 * s2 * s3)
    else if order == "ZYX" then
      Quat(s1 * c2 * c3 - c1 * s2 * s3, c1 * s2 * c3 + s1 * c2 * s3,
           c1 * c2 * s3 - s1 * s2 * c3, c1 * c2 * c3 + s1 * s2 * s3)
    else if order == "YZX" then
      Quat(s1 * c2 * c3 + c1 * s2 * s3, c1 * s2 * c3 + s1 * c2 * s3,
           c1 * c2 * s3 - s1 * s2 * c3, c1 * c2 * c3 - s1 * s2 * s3)
    else if order == "XZY" then
      Quat(s1 * c2 * c3 - c1 * s2 * s3, c1 * s2 * c3 - s1 * c2 * s3,
           c1 * c2 * s3 + s1 * s2 * c3, c1 * c2 * c3 + s1 * s2 * s3)
    else
      old_
  }

  /** FromArray: the four slots starting at offset. */
  function ReadQuat(s: seq<real>, offset: int): Quat
    requires 0 <= offset && offset + 4 <= |s|
  {
    Quat(s[offset], s[offset + 1], s[offset + 2], s[offset + 3])
  }

  /** ToArray: overwrite the four slots starting at offset. */
  function WriteQuat(s: seq<real>, offset: int, q: Quat): (r: seq<real>)
    requires 0 <= offset && offset + 4 <= |s|
    ensures |r| == |s|
    ensures ReadQuat(r, offset) == q
    ensures forall k | 0 <= k < |s| && !(offset <= k < offset + 4) :: r[k] == s[k]
  {
    s[offset := q.x][offset + 1 := q.y][offset + 2 := q.z][offset + 3 := q.w]
  }

  lemma WriteReadQuat(s: seq<real>, offset: int)
    requires 0 <= offset && offset + 4 <= |s|
    ensures WriteQuat(s, offset, ReadQuat(s, offset)) == s
  {
    var r := WriteQuat(s, offset, ReadQuat(s, offset));
    assert forall k | 0 <= k < |s| :: r[k] == s[k];
  }

  class Quaternion {
    var X: real
    var Y: real
    var Z: real
    var W: real
    /** How many times onChangeCallback has been invoked. */
    ghost var changes: nat

    function Value(): Quat
      reads this
    {
      Quat(X, Y, Z, W)
    }

    /** NewQuaternion: the callback starts as a no-op. */
    constructor (x: real, y: real, z: real, w: real)
      ensures Value() == Quat(x, y, z, w) && changes == 0
    {
      X, Y, Z, W := x, y, z, w;
      changes := 0;
    }

    /** NewEmptyQuaternion. */
    constructor Empty()
      ensures Value() == Identity && changes == 0
    {
      X, Y, Z, W := 0.0, 0.0, 0.0, 1.0;
      changes := 0;
    }

    method SetX(value: real)
      modifies this
      ensures Value() == old(Value()).(x := value) && changes == old(changes) + 1
    {
      X := value;
      changes := changes + 1;
    }

    method SetY(value: real)
      modifies this
      ensures Value() == old(Value()).(y := value) && changes == old(changes) + 1
    {
      Y := value;
      changes := changes + 1;
    }

    method SetZ(value: real)
      modifies this
      ensures Value() == old(Value()).(z := value) && changes == old(changes) + 1
    {
      Z := value;
      changes := changes + 1;
    }

    method SetW(value: real)
      modifies this
      ensures Value() == old(Value()).(w := value) && changes == old(changes) + 1
    {
      W := value;
      changes := changes + 1;
    }

    method Set(x: real, y: real, z: real, w: real)
      modifies this
      ensures Value() == Quat(x, y, z, w) && changes == old(changes) + 1
    {
      X, Y, Z, W := x, y, z, w;
      changes := changes + 1;
    }

    /** The clone gets the default no-op callback. */
    method Clone() returns (r: Quaternion)
      ensures fresh(r) && r.Value() == Value() && r.changes == 0
    {
      r := new Quaternion(X, Y, Z, W);
    }

    method Copy(quat: Quaternion)
      modifies this
      ensures Value() == old(quat.Value()) && changes == old(changes) + 1
    {
      X, Y, Z, W := quat.X, quat.Y, quat.Z, quat.W;
      changes := changes + 1;
    }

    /**
     * SetFromEuler with the cosines c1..c3 and sines s1..s3 of the three half
     * angles already computed. An unknown order leaves the components alone.
     */
    method SetFromEuler(c1: real, c2: real, c3: real, s1: real, s2: real, s3: real, order: string, update: bool)
      modifies this
      ensures Value() == FromEuler(c1, c2, c3, s1, s2, s3, order, old(Value()))
      ensures changes == old(changes) + (if update then 1 else 0)
    {
      if order == "XYZ" {
        X := s1 * c2 * c3 + c1 * s2 * s3;
        Y := c1 * s2 * c3 - s1 * c2 * s3;
        Z := c1 * c2 * s3 + s1 * s2 * c3;
        W := c1 * c2 * c3 - s1 * s2 * s3;
      } else if order == "YXZ" {
        X := s1 * c2 * c3 + c1 * s2 * s3;
        Y := c1 * s2 * c3 - s1 * c2 * s3;
        Z := c1 * c2 * s3 - s1 * s2 * c3;
        W := c1 * c2 * c3 + s1 * s2 * s3;
      } else if order == "ZXY" {
        X := s1 * c2 * c3 - c1 * s2 * s3;
        Y := c1 * s2 * c3 + s1 * c2 * s3;
        Z := c1 * c2 * s3 + s1 * s2 * c3;
        W := c1 * c2 * c3 - s1 * s2 * s3;
      } else if order == "ZYX" {
        X := s1 * c2 * c3 - c1 * s2 * s3;
        Y := c1 * s2 * c3 + s1 * c2 * s3;
        Z := c1 * c2 * s3 - s1 * s2 * c3;
        W := c1 * c2 * c3 + s1 * s2 * s3;
      } else if order == "YZX" {
        X := s1 * c2 * c3 + c1 * s2 * s3;
        Y := c1 * s2 * c3 + s1 * c2 * s3;
        Z := c1 * c2 * s3 - s1 * s2 * c3;
        W := c1 * c2 * c3 - s1 * s2 * s3;
      } else if order == "XZY" {
        X := s1 * c2 * c3 - c1 * s2 * s3;
        Y := c1 * s2 * c3 - s1 * c2 * s3;
        Z := c1 * c2 * s3 + s1 * s2 * c3;
        W := c1 * c2 * c3 + s1 * s2 * s3;
      }
      if update {
        changes := changes + 1;
      }
    }

    /** Conjugate, then Normalize: two notifications. */
    method Inverse(sqrt: real -> real)
      requires sqrt(0.0) == 0.0 && forall t :: t > 0.0 ==> sqrt(t) > 0.0
      modifies this
      ensures var c := old(Value()).Conjugate();
              Value() == if c.LengthSq() == 0.0 then Identity else c.Scale(1.0 / sqrt(c.LengthSq()))
      ensures changes == old(changes) + 2
    {
      Conjugate();
      Normalize(sqrt);
    }

    method Conjugate()
      modifies this
      ensures Value() == old(Value()).Conjugate() && changes == old(changes) + 1
    {
      X := X * -1.0;
      Y := Y * -1.0;
      Z := Z * -1.0;
      changes := changes + 1;
    }

    function Dot(v: Quaternion): (r: real)
      reads this, v
      ensures v == this ==> r == LengthSq()
    {
      Value().Dot(v.Value())
    }

    function LengthSq(): (r: real)
      reads this
      ensures r >= 0.0
    {
      Value().LengthSq()
    }

    /**
     * Normalize with math.Sqrt supplied as `sqrt`: only its value at 0 and
     * its positivity elsewhere matter for which branch runs.
     */
    method Normalize(sqrt: real -> real)
      requires sqrt(0.0) == 0.0 && forall t :: t > 0.0 ==> sqrt(t) > 0.0
      modifies this
      ensures old(LengthSq()) == 0.0 ==> Value() == Identity
      ensures old(LengthSq()) != 0.0 ==> Value() == old(Value()).Scale(1.0 / sqrt(old(LengthSq())))
      ensures changes == old(changes) + 1
    {
      var l := sqrt(LengthSq());
      if l == 0.0 {
        X, Y, Z, W := 0.0, 0.0, 0.0, 1.0;
      } else {
        l := 1.0 / l;
        X, Y, Z, W := X * l, Y * l, Z * l, W * l;
      }
      changes := changes + 1;
    }

    method Multiply(quat: Quaternion)
      modifies this
      ensures Value() == old(Value()).Mul(old(quat.Value())) && changes == old(changes) + 1
    {
      MultiplyQuaternions(this, quat);
    }

    /** All eight operands are read before the first write, so a or b may be the receiver. */
    method MultiplyQuaternions(a: Quaternion, b: Quaternion)
      modifies this
      ensures Value() == old(a.Value()).Mul(old(b.Value())) && changes == old(changes) + 1
    {
      var qax, qay, qaz, qaw := a.X, a.Y, a.Z, a.W;
      var qbx, qby, qbz, qbw := b.X, b.Y, b.Z, b.W;
      var r := Quat(qax, qay, qaz, qaw).Mul(Quat(qbx, qby, qbz, qbw));
      X, Y, Z, W := r.x, r.y, r.z, r.w;
      changes := changes + 1;
    }

    predicate Equals(quaternion: Quaternion)
      reads this, quaternion
      ensures Equals(quaternion) <==> Value() == quaternion.Value()
    {
      quaternion.X == X && quaternion.Y == Y && quaternion.Z == Z && quaternion.W == W
    }

    method FromArray(a: array<real>, offset: int)
      requires 0 <= offset && offset + 4 <= a.Length
      modifies this
      ensures Value() == ReadQuat(a[..], offset) && changes == old(changes) + 1
    {
      X, Y, Z, W := a[offset], a[offset + 1], a[offset + 2], a[offset + 3];
      changes := changes + 1;
    }

    method ToArray(a: array<real>, offset: int)
      requires 0 <= offset && offset + 4 <= a.Length
      modifies a
      ensures a[..] == WriteQuat(old(a[..]), offset, Value())
    {
      a[offset] := X;
      a[offset + 1] := Y;
      a[offset + 2] := Z;
      a[offset + 3] := W;
    }
  }
}
