/**
 * core/Channels.go: a set of channels kept as the bits of a Go int. Both the
 * mask and a channel number are Go ints, 64-bit two's complement words, so
 * both are bv64 here; Go's shift, or, xor and and-not act on exactly these
 * bit patterns.
 */
module Channels {

  /** A Go int whose sign bit is clear. */
  predicate NonNegative(x: bv64) {
    x < 0x8000_0000_0000_0000
  }

  /**
   * Go's `1 << channel` on an int: bit `channel` alone, or 0 once the shift
   * reaches the word width. (A negative shift count panics in Go; the
   * methods below demand a non-negative channel.)
   */
  function Bit(channel: bv64): bv64 {
    if channel < 64 then (1 as bv64) << channel else 0
  }

  function Enabled(m: bv64, channel: bv64): bv64 {
    m | Bit(channel)
  }

  function Toggled(m: bv64, channel: bv64): bv64 {
    m ^ Bit(channel)
  }

  /** The mask with channel c cleared: also "every channel of m except c". */
  function Disabled(m: bv64, channel: bv64): bv64 {
    m & !Bit(channel)
  }

  /** 1 << c has exactly one bit set when c < 64 (Set enables one channel), none otherwise. */
  lemma BitAlone(c: bv64)
    ensures c < 64 ==> Bit(c) != 0 && Bit(c) & (Bit(c) - 1) == 0
    ensures c >= 64 ==> Bit(c) == 0
  {
  }

  /** Different channels below 64 occupy different bits. */
  lemma BitsDistinct(c: bv64, d: bv64)
    requires c < 64 && d < 64 && c != d
    ensures Bit(c) & Bit(d) == 0
  {
  }

  /** A mask is determined by its channel-c bit and the rest. */
  lemma MaskParts(a: bv64, b: bv64, c: bv64)
    requires a & Bit(c) == b & Bit(c) && Disabled(a, c) == Disabled(b, c)
    ensures a == b
  {
  }

  // One bit-vector fact per lemma: the solver's bit-level search stays small.

  lemma EnableSetsBit(m: bv64, c: bv64)
    ensures Enabled(m, c) & Bit(c) == Bit(c)
  {
  }

  lemma EnableKeepsOthers(m: bv64, c: bv64)
    ensures Disabled(Enabled(m, c), c) == Disabled(m, c)
  {
  }

  lemma ToggleFlipsBit(m: bv64, c: bv64)
    ensures Toggled(m, c) & Bit(c) == (m & Bit(c)) ^ Bit(c)
  {
  }

  lemma ToggleKeepsOthers(m: bv64, c: bv64)
    ensures Disabled(Toggled(m, c), c) == Disabled(m, c)
  {
  }

  lemma DisableClearsBit(m: bv64, c: bv64)
    ensures Disabled(m, c) & Bit(c) == 0
  {
  }

  lemma DisableIdempotent(m: bv64, c: bv64)
    ensures Disabled(Disabled(m, c), c) == Disabled(m, c)
  {
  }

  lemma WideEnable(m: bv64, c: bv64)
    requires 64 <= c
    ensures Enabled(m, c) == m
  {
  }

  lemma WideToggle(m: bv64, c: bv64)
    requires 64 <= c
    ensures Toggled(m, c) == m
  {
  }

  lemma WideDisable(m: bv64, c: bv64)
    requires 64 <= c
    ensures Disabled(m, c) == m
  {
  }

  /** Enable is idempotent; Toggle twice restores the mask. */
  lemma Idempotence(m: bv64, c: bv64)
    ensures Enabled(Enabled(m, c), c) == Enabled(m, c)
    ensures Toggled(Toggled(m, c), c) == m
  {
  }

  /** Enabling a channel that was off and then disabling it restores the mask; toggling it is enabling it. */
  lemma EnableThenDisable(m: bv64, c: bv64)
    requires m & Bit(c) == 0
    ensures Disabled(Enabled(m, c), c) == m
    ensures Toggled(m, c) == Enabled(m, c)
  {
  }

  class Channels {
    var mask: bv64

    /** NewChannels: channel 0 only. */
    constructor ()
      ensures mask == 1
    {
      mask := 1;
    }

    /** Set(c): the mask becomes 1 << c, channel c alone. */
    method Set(channel: bv64)
      requires NonNegative(channel)
      modifies this
      ensures mask == Bit(channel)
    {
      mask := Bit(channel);
    }

    method Enable(channel: bv64)
      requires NonNegative(channel)
      modifies this
      ensures mask == Enabled(old(mask), channel)
    {
      mask := mask | Bit(channel);
    }

    method Toggle(channel: bv64)
      requires NonNegative(channel)
      modifies this
      ensures mask == Toggled(old(mask), channel)
    {
      mask := mask ^ Bit(channel);
    }

    method Disable(channel: bv64)
      requires NonNegative(channel)
      modifies this
      ensures mask == Disabled(old(mask), channel)
    {
      mask := mask & !Bit(channel);
    }
  }
}
