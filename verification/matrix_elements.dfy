/**
 * The element layouts shared by the vector and matrix code: a Matrix3 holds
 * nine and a Matrix4 sixteen float64 values in column-major order, so
 * element i + 4*j of a Matrix4 is row i of column j.
 */
module MatrixElements {

  type Mat3 = e: seq<real> | |e| == 9 witness seq(9, _ => 0.0)

  type Mat4 = e: seq<real> | |e| == 16 witness seq(16, _ => 0.0)

  /** Row i, column j of a Matrix4. */
  function At(e: Mat4, i: int, j: int): real
    requires 0 <= i < 4 && 0 <= j < 4
  {
    e[i + 4 * j]
  }

  /** The elements NewMatrix3 starts with. */
  function Identity3(): (e: Mat3)
    ensures forall k | 0 <= k < 9 :: e[k] == if k % 4 == 0 then 1.0 else 0.0
  {
    [1.0, 0.0, 0.0,
     0.0, 1.0, 0.0,
     0.0, 0.0, 1.0]
  }

  /** The elements NewMatrix4 starts with. */
  function Identity4(): (e: Mat4)
    ensures forall i, j | 0 <= i < 4 && 0 <= j < 4 :: At(e, i, j) == if i == j then 1.0 else 0.0
  {
    [1.0, 0.0, 0.0, 0.0,
     0.0, 1.0, 0.0, 0.0,
     0.0, 0.0, 1.0, 0.0,
     0.0, 0.0, 0.0, 1.0]
  }

  /** Two element lists agree when all sixteen slots agree. */
  lemma Ext16(s: seq<real>, t: seq<real>)
    requires |s| == 16 && |t| == 16
    requires s[0] == t[0] && s[1] == t[1] && s[2] == t[2] && s[3] == t[3]
    requires s[4] == t[4] && s[5] == t[5] && s[6] == t[6] && s[7] == t[7]
    requires s[8] == t[8] && s[9] == t[9] && s[10] == t[10] && s[11] == t[11]
    requires s[12] == t[12] && s[13] == t[13] && s[14] == t[14] && s[15] == t[15]
    ensures s == t
  {
    forall k | 0 <= k < 16
      ensures s[k] == t[k]
    {
      assert k == 0 || k == 1 || k == 2 || k == 3 || k == 4 || k == 5 || k == 6 || k == 7 ||
             k == 8 || k == 9 || k == 10 || k == 11 || k == 12 || k == 13 || k == 14 || k == 15;
    }
  }
}
