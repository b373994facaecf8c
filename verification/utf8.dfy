/**
  `encodeUTF8`: the bit layout of section 3 of RFC 3629, optionally OR-ing a high mask into every unit of a
  multi-unit sequence. The shifts `>>` and masks `& 0x3f` of the source are written as division and
  remainder, which agree with them on the non-negative code points the lexer passes in.
*/
module Utf8 {
  import opened Wrappers

  /** The only masks the encoding modes use: none, and the x-user-defined private-use page. */
  predicate IsHighMask(m: int) { m == 0 || m == 0xF700 }

  /**
    `highMask | b` for a byte value b. The mask 0xF700 has no bit set in the low byte, so OR-ing it into a
    byte is the same as adding it.
  */
  function MaskOr(highMask: int, b: int): int
    requires IsHighMask(highMask) && 0 <= b < 0x100
  {
    highMask + b
  }

  /** `encodeUTF8(codepoint, highMask)`; a code point from 0x110000 up yields no units (the source warns). */
  function EncodeUTF8(codepoint: nat, highMask: int): (r: seq<int>)
    requires IsHighMask(highMask)
    ensures r != [] <==> codepoint < 0x110000
    ensures |r| <= 4
  {
    if codepoint < 0x80 then
      [codepoint]
    else if codepoint < 0x800 then
      [MaskOr(highMask, 0xC0 + codepoint / 64), MaskOr(highMask, 0x80 + codepoint % 64)]
    else if codepoint < 0x10000 then
      [MaskOr(highMask, 0xE0 + codepoint / 4096),
       MaskOr(highMask, 0x80 + (codepoint / 64) % 64),
       MaskOr(highMask, 0x80 + codepoint % 64)]
    else if codepoint < 0x110000 then
      [MaskOr(highMask, 0xF0 + codepoint / 262144),
       MaskOr(highMask, 0x80 + (codepoint / 4096) % 64),
       MaskOr(highMask, 0x80 + (codepoint / 64) % 64),
       MaskOr(highMask, 0x80 + codepoint % 64)]
    else
      []
  }

  predicate IsContinuation(b: int) { 0x80 <= b < 0xC0 }

  /**
    Decoding of one UTF-8 sequence following the table of section 3 of RFC 3629: the lead byte's prefix fixes
    the length, every further byte is 10xxxxxx, and the value must need that length (no overlong form) and stay
    below 0x110000. RFC 3629 also excludes the surrogates D800-DFFF; the encoder, like Lua's own `\u{...}`,
    does produce them, so the decoder here only checks the bit layout.
  */
  function DecodeUTF8(u: seq<int>): (r: Option<nat>)
    ensures r.Some? ==> r.value < 0x110000
  {
    if |u| == 1 && 0 <= u[0] < 0x80 then
      Some(u[0])
    else if |u| == 2 && 0xC0 <= u[0] < 0xE0 && IsContinuation(u[1]) then
      var v := (u[0] - 0xC0) * 64 + (u[1] - 0x80);
      if v >= 0x80 then Some(v) else None
    else if |u| == 3 && 0xE0 <= u[0] < 0xF0 && IsContinuation(u[1]) && IsContinuation(u[2]) then
      var v := (u[0] - 0xE0) * 4096 + (u[1] - 0x80) * 64 + (u[2] - 0x80);
      if v >= 0x800 then Some(v) else None
    else if |u| == 4 && 0xF0 <= u[0] < 0xF8 && IsContinuation(u[1]) && IsContinuation(u[2]) && IsContinuation(u[3]) then
      var v := (u[0] - 0xF0) * 262144 + (u[1] - 0x80) * 4096 + (u[2] - 0x80) * 64 + (u[3] - 0x80);
      if 0x10000 <= v < 0x110000 then Some(v) else None
    else
      None
  }

  /** Removes the x-user-defined mask from one unit. */
  function Unmask(u: int): (b: int)
    ensures 0xF700 <= u < 0xF800 ==> 0 <= b < 0x100
  {
    if 0xF700 <= u < 0xF800 then u - 0xF700 else u
  }

  function UnmaskAll(us: seq<int>): (bs: seq<int>)
  {
    seq(|us|, i requires 0 <= i < |us| => Unmask(us[i]))
  }

  lemma Split64(c: nat)
    ensures c == (c / 64) * 64 + c % 64
    ensures (c / 64) / 64 == c / 4096
    ensures (c / 4096) / 64 == c / 262144
  {
  }

  /** The number of units is fixed by the code point's range: below 0x80, 0x800, 0x10000, 0x110000. */
  lemma EncodeLength(codepoint: nat, highMask: int)
    requires IsHighMask(highMask)
    ensures var n := |EncodeUTF8(codepoint, highMask)|;
      && (codepoint < 0x80 ==> n == 1)
      && (0x80 <= codepoint < 0x800 ==> n == 2)
      && (0x800 <= codepoint < 0x10000 ==> n == 3)
      && (0x10000 <= codepoint < 0x110000 ==> n == 4)
      && (codepoint >= 0x110000 ==> n == 0)
  {
  }

  /** Without a mask the units are bytes: a 0xC0/0xE0/0xF0 lead unit and 10xxxxxx continuation units. */
  lemma {:induction false} EncodeShape(codepoint: nat)
    requires codepoint < 0x110000
    ensures var u := EncodeUTF8(codepoint, 0);
      && (forall i :: 0 <= i < |u| ==> 0 <= u[i] < 0x100)
      && (|u| == 2 ==> 0xC0 <= u[0] < 0xE0)
      && (|u| == 3 ==> 0xE0 <= u[0] < 0xF0)
      && (|u| == 4 ==> 0xF0 <= u[0] < 0xF8)
      && (forall i :: 1 <= i < |u| ==> IsContinuation(u[i]))
  {
    var c := codepoint;
    var u := EncodeUTF8(c, 0);
    if c < 0x80 {
    } else if c < 0x800 {
      assert c / 64 < 32;
      assert u == [0xC0 + c / 64, 0x80 + c % 64];
    } else if c < 0x10000 {
      assert c / 4096 < 16;
      assert u == [0xE0 + c / 4096, 0x80 + (c / 64) % 64, 0x80 + c % 64];
    } else {
      assert c / 262144 < 5;
      assert u == [0xF0 + c / 262144, 0x80 + (c / 4096) % 64, 0x80 + (c / 64) % 64, 0x80 + c % 64];
    }
  }

  /** With mask 0, RFC 3629 decoding of `encodeUTF8(cp)` gives back cp. */
  lemma {:induction false} DecodeEncode(codepoint: nat)
    requires codepoint < 0x110000
    ensures DecodeUTF8(EncodeUTF8(codepoint, 0)) == Some(codepoint)
  {
    var c := codepoint;
    var u := EncodeUTF8(c, 0);
    EncodeShape(c);
    Split64(c);
    Split64(c / 64);
    Split64(c / 4096);
    if c < 0x80 {
    } else if c < 0x800 {
      assert u == [0xC0 + c / 64, 0x80 + c % 64];
      assert (u[0] - 0xC0) * 64 + (u[1] - 0x80) == c;
    } else if c < 0x10000 {
      assert u == [0xE0 + c / 4096, 0x80 + (c / 64) % 64, 0x80 + c % 64];
      assert (u[0] - 0xE0) * 4096 + (u[1] - 0x80) * 64 + (u[2] - 0x80) == c;
    } else {
      assert u == [0xF0 + c / 262144, 0x80 + (c / 4096) % 64, 0x80 + (c / 64) % 64, 0x80 + c % 64];
      assert (u[0] - 0xF0) * 262144 + (u[1] - 0x80) * 4096 + (u[2] - 0x80) * 64 + (u[3] - 0x80) == c;
    }
  }

  /** With the 0xF700 mask, every unit of a multi-unit sequence is the masked byte, and unmasking then decoding gives cp back. */
  lemma {:induction false} MaskedEncoding(codepoint: nat)
    requires codepoint < 0x110000
    ensures var u := EncodeUTF8(codepoint, 0xF700);
      var b := EncodeUTF8(codepoint, 0);
      && |u| == |b|
      && (|u| == 1 ==> u == b)
      && (|u| > 1 ==> forall i :: 0 <= i < |u| ==> u[i] == 0xF700 + b[i] && 0xF780 <= u[i] < 0xF800)
      && DecodeUTF8(UnmaskAll(u)) == Some(codepoint)
  {
    EncodeShape(codepoint);
    DecodeEncode(codepoint);
    var u := EncodeUTF8(codepoint, 0xF700);
    var b := EncodeUTF8(codepoint, 0);
    assert UnmaskAll(u) == b;
  }
}
