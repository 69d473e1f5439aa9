/**
 * The scalar helpers of math/Math.go: clamping, round-half-to-even, the
 * random version-4 UUID generator and the degree/radian conversions.
 * Go's float64 is modelled as an exact real.
 */
module MathUtils {

  /** math.Max(min, math.Min(max, value)). */
  function Clamp(value: real, min: real, max: real): (r: real)
    ensures r >= min
    ensures min <= max ==> min <= r <= max
    ensures min <= max && min <= value <= max ==> r == value
    ensures min <= max && value < min ==> r == min
    ensures min <= max && value > max ==> r == max
    ensures max < min ==> r == min
  {
    var upper := if max < value then max else value;
    if min > upper then min else upper
  }

  /** The integer part returned by math.Modf: x rounded toward zero. */
  function Trunc(x: real): (v: int)
    ensures x >= 0.0 ==> 0.0 <= x - v as real < 1.0
    ensures x < 0.0 ==> -1.0 < x - v as real <= 0.0
  {
    if x >= 0.0 then x.Floor else -((-x).Floor)
  }

  predicate Even(n: int) { n % 2 == 0 }

  /**
   * Round to the nearest integer, ties to even. The integer part's parity
   * stands for `uint64(v) % 2`. Go leaves the conversion of a negative
   * float64 to uint64 to the implementation: on amd64 it yields the two's
   * complement word, whose parity is that of v, and that reading is the one
   * taken here; on arm64 it saturates to 0, so a negative tie such as -1.5
   * stays at -1.
   */
  function Round(x: real): (r: real)
    ensures r == r.Floor as real
    ensures r - 0.5 <= x <= r + 0.5
    ensures x == r - 0.5 || x == r + 0.5 ==> Even(r.Floor)
  {
    var v := Trunc(x);
    var frac := x - v as real;
    if x > 0.0 then
      if frac > 0.5 || (frac == 0.5 && !Even(v)) then (v + 1) as real else v as real
    else
      if frac < -0.5 || (frac == -0.5 && !Even(v)) then (v - 1) as real else v as real
  }

  function Dist(a: real, b: real): real { if a < b then b - a else a - b }

  /** No integer is strictly closer to x than Round(x). */
  lemma RoundIsNearest(x: real, n: int)
    ensures Dist(x, Round(x)) <= Dist(x, n as real)
  {
    var r := Round(x);
    if n as real < r {
      assert n as real <= r - 1.0 by { assert n < r.Floor; }
    } else if n as real > r {
      assert n as real >= r + 1.0 by { assert n > r.Floor; }
    }
  }

  /** a * a is never negative, positive unless a is 0, and at most 1 when a is in [0, 1]. */
  lemma Square(a: real)
    ensures a * a >= 0.0
    ensures a != 0.0 ==> a * a > 0.0
    ensures 0.0 <= a <= 1.0 ==> a * a <= 1.0
  {
    if a < 0.0 {
      assert (-a) * (-a) > 0.0;
    } else if a > 0.0 {
      assert a * a > 0.0;
      if a <= 1.0 {
        assert a * a <= a * 1.0;
      }
    }
  }

  /** The float64 closest to pi, written as a decimal. */
  const Pi: real := 3.141592653589793

  function RadToDeg(radians: real): (degrees: real)
    ensures radians > 0.0 <==> degrees > 0.0
    ensures radians == Pi ==> degrees == 180.0
  {
    radians * (180.0 / Pi)
  }

  function DegToRad(degrees: real): (radians: real)
    ensures RadToDeg(radians) == degrees
    ensures degrees == 180.0 ==> radians == Pi
  {
    degrees * (Pi / 180.0)
  }

  /** Converting to degrees and back gives the angle in radians again. */
  lemma RadiansRoundTrip(radians: real)
    ensures DegToRad(RadToDeg(radians)) == radians
  {
    assert (180.0 / Pi) * (Pi / 180.0) == 1.0;
  }

  /** The 62-character alphabet the UUID generator indexes into. */
  const Chars: string := "0123456789ABCDEFGHIJKLMNOPQRSTUVWXYZabcdefghijklmnopqrstuvwxyz"

  /**
   * What GenerateUUID puts at index i: the RFC 4122 version-4 layout, with
   * an upper-case hex digit (Chars[..16]) in every random position and one
   * of 8, 9, A, B (Chars[8..12]) at index 19.
   */
  predicate UuidCharAt(i: int, c: char) {
    if i == 8 || i == 13 || i == 18 || i == 23 then c == '-'
    else if i == 14 then c == '4'
    else if i == 19 then c in Chars[8..12]
    else c in Chars[..16]
  }

  /**
   * GenerateUUID with rand.Float64 supplied as `draw`: draw(k) is the k-th
   * random number. Each draw yields 24 fresh random bits, consumed four at a
   * time.
   */
  method GenerateUUID(draw: nat -> real) returns (uuid: string)
    requires forall k :: 0.0 <= draw(k) < 1.0
    ensures |uuid| == 36
    ensures forall i | 0 <= i < 36 :: UuidCharAt(i, uuid[i])
  {
    var chars := new char[36];
    var rnd := 0;
    var draws := 0;
    for i := 0 to 36
      invariant rnd >= 0
      invariant forall j | 0 <= j < i :: UuidCharAt(j, chars[j])
    {
      if i == 8 || i == 13 || i == 18 || i == 23 {
        chars[i] := '-';
      } else if i == 14 {
        chars[i] := '4';
      } else {
        if rnd <= 2 {
          rnd := 0x2000000 + Trunc(draw(draws) * 0x1000000 as real);
          draws := draws + 1;
        }
        var r := rnd % 16;
        rnd := rnd / 16;
        if i == 19 {
          // (r & 0x3) | 0x8
          chars[i] := Chars[r % 4 + 8];
          assert Chars[8..12][r % 4] == chars[i];
        } else {
          chars[i] := Chars[r];
          assert Chars[..16][r] == chars[i];
        }
      }
    }
    uuid := chars[..];
  }
}
