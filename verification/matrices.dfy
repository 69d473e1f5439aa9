/**
 * math/Matrix4.go: the 4x4 transform on sixteen column-major elements.
 * Value-level definitions (Product, Scaled, WithPosition, Rotation, Compose,
 * Determinant) specify the Matrix4 object, whose methods overwrite its
 * element array in place.
 *
 * In the source every mutator starts with `te := m.Elements`, which copies
 * the Go array, so its writes never reach the matrix. The model writes the
 * matrix's own elements, as the methods evidently intend.
 */
module Matrices {
  import opened MatrixElements
  import opened Vectors
  import opened Quaternions

  /** Row i of a times column j of b. */
  function Entry(a: Mat4, b: Mat4, i: int, j: int): real
    requires 0 <= i < 4 && 0 <= j < 4
  {
    At(a, i, 0) * At(b, 0, j) + At(a, i, 1) * At(b, 1, j) + At(a, i, 2) * At(b, 2, j) + At(a, i, 3) * At(b, 3, j)
  }

  /** MultiplyMatrices(a, b): the column-major product a x b. */
  function Product(a: Mat4, b: Mat4): (r: Mat4)
    ensures forall i, j | 0 <= i < 4 && 0 <= j < 4 :: At(r, i, j) == Entry(a, b, i, j)
  {
    seq(16, k requires 0 <= k < 16 => Entry(a, b, k % 4, k / 4))
  }

  /** The identity is neutral on either side of the product. */
  lemma ProductIdentity(m: Mat4)
    ensures Product(Identity4(), m) == m
    ensures Product(m, Identity4()) == m
  {
    var l, r := Product(Identity4(), m), Product(m, Identity4());
    forall k | 0 <= k < 16
      ensures l[k] == m[k] && r[k] == m[k]
    {
      assert At(l, k % 4, k / 4) == Entry(Identity4(), m, k % 4, k / 4);
      assert At(r, k % 4, k / 4) == Entry(m, Identity4(), k % 4, k / 4);
    }
  }

  /** Scale(v): columns 0, 1 and 2 are multiplied by v.x, v.y and v.z. */
  function Scaled(e: Mat4, v: Vec3): (r: Mat4)
    ensures forall i | 0 <= i < 4 ::
      At(r, i, 0) == At(e, i, 0) * v.x && At(r, i, 1) == At(e, i, 1) * v.y &&
      At(r, i, 2) == At(e, i, 2) * v.z && At(r, i, 3) == At(e, i, 3)
  {
    [e[0] * v.x, e[1] * v.x, e[2] * v.x, e[3] * v.x,
     e[4] * v.y, e[5] * v.y, e[6] * v.y, e[7] * v.y,
     e[8] * v.z, e[9] * v.z, e[10] * v.z, e[11] * v.z,
     e[12], e[13], e[14], e[15]]
  }

  /** Scale((1, 1, 1)) changes nothing. */
  lemma ScaledByOnes(e: Mat4)
    ensures Scaled(e, Vec3(1.0, 1.0, 1.0)) == e
  {
    Ext16(Scaled(e, Vec3(1.0, 1.0, 1.0)), e);
  }

  /** SetPosition(v): only elements 12, 13 and 14 change. */
  function WithPosition(e: Mat4, v: Vec3): (r: Mat4)
    ensures MatrixPosition(r) == v
    ensures forall k | 0 <= k < 16 && k != 12 && k != 13 && k != 14 :: r[k] == e[k]
  {
    e[12 := v.x][13 := v.y][14 := v.z]
  }

  /** Setting the position a matrix already has changes nothing. */
  lemma WithOwnPosition(e: Mat4)
    ensures WithPosition(e, MatrixPosition(e)) == e
  {
    Ext16(WithPosition(e, MatrixPosition(e)), e);
  }

  /** MakeRotationFromQuaternion. */
  function Rotation(q: Quat): (r: Mat4)
    ensures r[3] == 0.0 && r[7] == 0.0 && r[11] == 0.0 && r[15] == 1.0
    ensures MatrixPosition(r) == Zero
  {
    var x2, y2, z2 := q.x + q.x, q.y + q.y, q.z + q.z;
    var xx, xy, xz := q.x * x2, q.x * y2, q.x * z2;
    var yy, yz, zz := q.y * y2, q.y * z2, q.z * z2;
    var wx, wy, wz := q.w * x2, q.w * y2, q.w * z2;
    [1.0 - (yy + zz), xy + wz, xz - wy, 0.0,
     xy - wz, 1.0 - (xx + zz), yz + wx, 0.0,
     xz + wy, yz - wx, 1.0 - (xx + yy), 0.0,
     0.0, 0.0, 0.0, 1.0]
  }

  lemma RotationOfIdentity()
    ensures Rotation(Quaternions.Identity) == Identity4()
  {
  }

  /** Compose: rotation, then Scale, then SetPosition. */
  function Composition(position: Vec3, quaternion: Quat, scale: Vec3): (r: Mat4)
    ensures MatrixPosition(r) == position
    ensures r[3] == 0.0 && r[7] == 0.0 && r[11] == 0.0 && r[15] == 1.0
  {
    WithPosition(Scaled(Rotation(quaternion), scale), position)
  }

  /** The neutral position, rotation and scale compose to the identity. */
  lemma ComposeNeutral()
    ensures Composition(Zero, Quaternions.Identity, Vec3(1.0, 1.0, 1.0)) == Identity4()
  {
    RotationOfIdentity();
    ScaledByOnes(Identity4());
    WithOwnPosition(Identity4());
  }

  /** Without rotation a composed matrix scales a point, then translates it. */
  lemma ComposeWithoutRotation(position: Vec3, scale: Vec3, v: Vec3)
    ensures v.ApplyMatrix4(Composition(position, Quaternions.Identity, scale)) == v.Mul(scale).Add(position)
  {
    RotationOfIdentity();
    var e := Composition(position, Quaternions.Identity, scale);
    assert e[0] == scale.x && e[1] == 0.0 && e[2] == 0.0;
    assert e[4] == 0.0 && e[5] == scale.y && e[6] == 0.0;
    assert e[8] == 0.0 && e[9] == 0.0 && e[10] == scale.z;
  }

  /** Determinant, by the cofactors of the bottom row. */
  function DeterminantOf(te: Mat4): real {
    var n11, n12, n13, n14 := te[0], te[4], te[8], te[12];
    var n21, n22, n23, n24 := te[1], te[5], te[9], te[13];
    var n31, n32, n33, n34 := te[2], te[6], te[10], te[14];
    var n41, n42, n43, n44 := te[3], te[7], te[11], te[15];
    var p1 := n41 * (n14 * n23 * n32 - n13 * n24 * n32 - n14 * n22 * n33 + n12 * n24 * n33 + n13 * n22 * n34 - n12 * n23 * n34);
    var p2 := n42 * (n11 * n23 * n34 - n11 * n24 * n33 + n14 * n21 * n33 - n13 * n21 * n34 + n13 * n24 * n31 - n14 * n23 * n31);
    var p3 := n43 * (n11 * n24 * n32 - n11 * n22 * n34 - n14 * n21 * n32 + n12 * n21 * n34 + n14 * n22 * n31 - n12 * n24 * n31);
    var p4 := n44 * (- n13 * n22 * n31 - n11 * n23 * n32 + n11 * n22 * n33 + n13 * n21 * n32 - n12 * n21 * n33 + n12 * n23 * n31);
    p1 + p2 + p3 + p4
  }

  lemma DeterminantOfIdentity()
    ensures DeterminantOf(Identity4()) == 1.0
  {
  }

  /** Scaling the identity by v gives determinant v.x * v.y * v.z; a translation does not change it. */
  lemma DeterminantOfScale(v: Vec3, p: Vec3)
    ensures DeterminantOf(Scaled(Identity4(), v)) == v.x * v.y * v.z
    ensures DeterminantOf(WithPosition(Scaled(Identity4(), v), p)) == v.x * v.y * v.z
  {
  }

  class Matrix4 {
    /** The sixteen column-major elements. */
    const elements: array<real>

    ghost predicate Valid()
      reads this
    {
      elements.Length == 16
    }

    function Value(): Mat4
      reads this, elements
      requires Valid()
    {
      elements[..]
    }

    /** NewMatrix4: the identity. */
    constructor ()
      ensures Valid() && fresh(elements)
      ensures Value() == Identity4()
    {
      elements := new real[16] [1.0, 0.0, 0.0, 0.0,
                                0.0, 1.0, 0.0, 0.0,
                                0.0, 0.0, 1.0, 0.0,
                                0.0, 0.0, 0.0, 1.0];
    }

    /** The sixteen entries are those of Rotation(q), written in the source's order. */
    method MakeRotationFromQuaternion(q: Quat)
      requires Valid()
      modifies elements
      ensures Value() == Rotation(q)
    {
      // the rotation block, then the zero last row, the zero translation and the final 1
      var te, r := elements, Rotation(q);
      forall k | 0 <= k < 16 {
        te[k] := r[k];
      }
      assert te[..] == r;
    }

    /** Equals: true iff all sixteen elements agree. */
    method Equals(matrix: Matrix4) returns (r: bool)
      requires Valid() && matrix.Valid()
      ensures r <==> Value() == matrix.Value()
    {
      var te, me := elements, matrix.elements;
      for i := 0 to 16
        invariant forall k | 0 <= k < i :: te[k] == me[k]
      {
        if te[i] != me[i] {
          return false;
        }
      }
      assert te[..] == me[..];
      return true;
    }

    method Scale(v: Vec3)
      requires Valid()
      modifies elements
      ensures Value() == Scaled(old(Value()), v)
    {
      // te[k] *= v.x, v.y or v.z for the elements of columns 0, 1 and 2
      var te, r := elements, Scaled(Value(), v);
      forall k | 0 <= k < 12 {
        te[k] := r[k];
      }
      assert te[..] == r;
    }

    method SetPosition(v: Vec3)
      requires Valid()
      modifies elements
      ensures Value() == WithPosition(old(Value()), v)
    {
      var te := elements;
      te[12] := v.x;
      te[13] := v.y;
      te[14] := v.z;
      Ext16(te[..], WithPosition(old(Value()), v));
    }

    method Compose(position: Vec3, quaternion: Quat, scale: Vec3)
      requires Valid()
      modifies elements
      ensures Value() == Composition(position, quaternion, scale)
    {
      MakeRotationFromQuaternion(quaternion);
      Scale(scale);
      SetPosition(position);
    }

    function Determinant(): real
      reads this, elements
      requires Valid()
    {
      DeterminantOf(Value())
    }

    /**
     * Every operand is read into a local before the first write, so a or b
     * may be this matrix: the sixteen entries of Product(a, b) are fixed
     * before any of them is stored.
     */
    method MultiplyMatrices(a: Matrix4, b: Matrix4)
      requires Valid() && a.Valid() && b.Valid()
      modifies elements
      ensures Value() == Product(old(a.Value()), old(b.Value()))
    {
      var p, te := Product(a.Value(), b.Value()), elements;
      forall k | 0 <= k < 16 {
        te[k] := p[k];
      }
      assert te[..] == p;
    }
  }
}
