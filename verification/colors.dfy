/**
 * math/Color.go: an RGB colour with float channels. The value type Rgb
 * carries the channel arithmetic; the Color object updates r, g, b in place.
 */
module Colors {
  import MathUtils

  datatype Rgb = Rgb(r: real, g: real, b: real) {

    function Add(c: Rgb): Rgb {
      Rgb(r + c.r, g + c.g, b + c.b)
    }

    function AddScalar(s: real): Rgb {
      Rgb(r + s, g + s, b + s)
    }

    function Mul(c: Rgb): Rgb {
      Rgb(r * c.r, g * c.g, b * c.b)
    }

    function Scale(s: real): (res: Rgb)
      ensures res == Mul(Rgb(s, s, s))
    {
      Rgb(r * s, g * s, b * s)
    }

    /** Move toward c by the fraction alpha. */
    function Lerp(c: Rgb, alpha: real): (res: Rgb)
      ensures alpha == 0.0 ==> res == this
      ensures alpha == 1.0 ==> res == c
      ensures 0.0 <= alpha <= 1.0 ==> Between(r, c.r, res.r) && Between(g, c.g, res.g) && Between(b, c.b, res.b)
    {
      if 0.0 <= alpha <= 1.0 then
        LerpBetween(r, c.r, alpha);
        LerpBetween(g, c.g, alpha);
        LerpBetween(b, c.b, alpha);
        Rgb(r + (c.r - r) * alpha, g + (c.g - g) * alpha, b + (c.b - b) * alpha)
      else
      Rgb(r + (c.r - r) * alpha, g + (c.g - g) * alpha, b + (c.b - b) * alpha)
    }

    /** ConvertGammaToLinear with gamma 2: every channel squared. */
    function Squared(): (res: Rgb)
      ensures res.r >= 0.0 && res.g >= 0.0 && res.b >= 0.0
      ensures InUnitCube() ==> res.InUnitCube()
    {
      MathUtils.Square(r);
      MathUtils.Square(g);
      MathUtils.Square(b);
      Rgb(r * r, g * g, b * b)
    }

    predicate InUnitCube() {
      0.0 <= r <= 1.0 && 0.0 <= g <= 1.0 && 0.0 <= b <= 1.0
    }
  }

  /** t lies between a and b, whichever is larger. */
  predicate Between(a: real, b: real, t: real) {
    (a <= t <= b) || (b <= t <= a)
  }

  lemma LerpBetween(a: real, b: real, alpha: real)
    requires 0.0 <= alpha <= 1.0
    ensures Between(a, b, a + (b - a) * alpha)
  {
    if a <= b {
      MulNonneg(b - a, alpha);
      MulNonneg(b - a, 1.0 - alpha);
      assert (b - a) * (1.0 - alpha) == (b - a) - (b - a) * alpha;
    } else {
      MulNonneg(a - b, alpha);
      MulNonneg(a - b, 1.0 - alpha);
      assert (a - b) * (1.0 - alpha) == (a - b) - (a - b) * alpha;
      assert (b - a) * alpha == -((a - b) * alpha);
    }
  }

  lemma MulNonneg(x: real, y: real)
    requires x >= 0.0 && y >= 0.0
    ensures x * y >= 0.0
  {
  }

  /** NewDefaultColor: white. */
  const White: Rgb := Rgb(1.0, 1.0, 1.0)

  /** One byte of hex: (hex >> shift) & 255, for Go's 64-bit arithmetic shift. */
  function Byte(hex: int, shift: nat): (v: int)
    ensures 0 <= v < 256
  {
    (hex / Pow2(shift)) % 256
  }

  function Pow2(n: nat): (p: nat)
    ensures p >= 1
  {
    if n == 0 then 1 else 2 * Pow2(n - 1)
  }

  /** SetHex: bits 16..23 are red, 8..15 green and 0..7 blue, each scaled into [0, 1]. */
  function FromHex(hex: int): (c: Rgb)
    ensures c.InUnitCube()
  {
    Rgb(Byte(hex, 16) as real / 255.0, Byte(hex, 8) as real / 255.0, Byte(hex, 0) as real / 255.0)
  }

  /** The 24-bit value encoded by the three channels of a colour produced by FromHex. */
  function ToHex24(c: Rgb): int {
    (c.r * 255.0).Floor * 65536 + (c.g * 255.0).Floor * 256 + (c.b * 255.0).Floor
  }

  /** Every 24-bit colour value survives SetHex. */
  lemma {:induction false} HexRoundTrip(hex: int)
    requires 0 <= hex < 0x1000000
    ensures ToHex24(FromHex(hex)) == hex
  {
    var c := FromHex(hex);
    assert Pow2(16) == 65536 && Pow2(8) == 256 && Pow2(0) == 1 by {
      assert Pow2(8) == 256 by {
        assert Pow2(4) == 16;
      }
      assert Pow2(16) == 256 * 256 by {
        PowAdd(8, 8);
      }
    }
    assert (c.r * 255.0).Floor == Byte(hex, 16);
    assert (c.g * 255.0).Floor == Byte(hex, 8);
    assert (c.b * 255.0).Floor == Byte(hex, 0);
    var hi, mid, lo := hex / 65536, (hex / 256) % 256, hex % 256;
    assert hi < 256;
    assert hex / 256 == hi * 256 + mid;
  }

  lemma {:induction false} PowAdd(a: nat, b: nat)
    ensures Pow2(a + b) == Pow2(a) * Pow2(b)
    decreases a
  {
    if a > 0 {
      PowAdd(a - 1, b);
    }
  }

  /** FromArray: the three slots starting at offset. */
  function ReadRgb(s: seq<real>, offset: int): Rgb
    requires 0 <= offset && offset + 3 <= |s|
  {
    Rgb(s[offset], s[offset + 1], s[offset + 2])
  }

  /** ToArray: overwrite the three slots starting at offset. */
  function WriteRgb(s: seq<real>, offset: int, c: Rgb): (res: seq<real>)
    requires 0 <= offset && offset + 3 <= |s|
    ensures |res| == |s|
    ensures ReadRgb(res, offset) == c
    ensures forall k | 0 <= k < |s| && !(offset <= k < offset + 3) :: res[k] == s[k]
  {
    s[offset := c.r][offset + 1 := c.g][offset + 2 := c.b]
  }

  lemma WriteReadRgb(s: seq<real>, offset: int)
    requires 0 <= offset && offset + 3 <= |s|
    ensures WriteRgb(s, offset, ReadRgb(s, offset)) == s
  {
    var res := WriteRgb(s, offset, ReadRgb(s, offset));
    assert forall k | 0 <= k < |s| :: res[k] == s[k];
  }

  class Color {
    var r: real
    var g: real
    var b: real

    function Value(): Rgb
      reads this
    {
      Rgb(r, g, b)
    }

    /** NewColor. */
    constructor (r: real, g: real, b: real)
      ensures Value() == Rgb(r, g, b)
    {
      this.r, this.g, this.b := r, g, b;
    }

    /** NewDefaultColor. */
    constructor Default()
      ensures Value() == White
    {
      r, g, b := 1.0, 1.0, 1.0;
    }

    method SetHex(hex: int)
      modifies this
      ensures Value() == FromHex(hex)
    {
      r := Byte(hex, 16) as real / 255.0;
      g := Byte(hex, 8) as real / 255.0;
      b := Byte(hex, 0) as real / 255.0;
    }

    method SetRGB(r: real, g: real, b: real)
      modifies this
      ensures Value() == Rgb(r, g, b)
    {
      this.r, this.g, this.b := r, g, b;
    }

    method Clone() returns (c: Color)
      ensures fresh(c) && c.Value() == Value()
    {
      c := new Color(r, g, b);
    }

    method Copy(color: Color)
      modifies this
      ensures Value() == old(color.Value())
      ensures Equals(color)
    {
      r, g, b := color.r, color.g, color.b;
    }

    method ConvertGammaToLinear()
      modifies this
      ensures Value() == old(Value()).Squared()
    {
      var r0, g0, b0 := r, g, b;
      r, g, b := r0 * r0, g0 * g0, b0 * b0;
    }

    method Add(color: Color)
      modifies this
      ensures Value() == old(Value()).Add(old(color.Value()))
    {
      r := r + color.r;
      g := g + color.g;
      b := b + color.b;
    }

    method AddColors(color1: Color, color2: Color)
      modifies this
      ensures Value() == old(color1.Value()).Add(old(color2.Value()))
    {
      r := color1.r + color2.r;
      g := color1.g + color2.g;
      b := color1.b + color2.b;
    }

    method AddScalar(s: real)
      modifies this
      ensures Value() == old(Value()).AddScalar(s)
    {
      r, g, b := r + s, g + s, b + s;
    }

    method Multiply(color: Color)
      modifies this
      ensures Value() == old(Value()).Mul(old(color.Value()))
    {
      r := r * color.r;
      g := g * color.g;
      b := b * color.b;
    }

    method MultiplyScalar(s: real)
      modifies this
      ensures Value() == old(Value()).Scale(s)
    {
      r, g, b := r * s, g * s, b * s;
    }

    method Lerp(color: Color, alpha: real)
      modifies this
      ensures Value() == old(Value()).Lerp(old(color.Value()), alpha)
    {
      r := r + (color.r - r) * alpha;
      g := g + (color.g - g) * alpha;
      b := b + (color.b - b) * alpha;
    }

    predicate Equals(color: Color)
      reads this, color
      ensures Equals(color) <==> Value() == color.Value()
    {
      r == color.r && g == color.g && b == color.b
    }

    method FromArray(a: array<real>, offset: int)
      requires 0 <= offset && offset + 3 <= a.Length
      modifies this
      ensures Value() == ReadRgb(a[..], offset)
    {
      r, g, b := a[offset], a[offset + 1], a[offset + 2];
    }

    method ToArray(a: array<real>, offset: int)
      requires 0 <= offset && offset + 3 <= a.Length
      modifies a
      ensures a[..] == WriteRgb(old(a[..]), offset, Value())
    {
      a[offset] := r;
      a[offset + 1] := g;
      a[offset + 2] := b;
    }
  }
}
