/**
  The three `encodingModes`: how the escapes of a string literal become code units. In every mode `fixup` is
  the identity and `discardStrings` is false or absent, so the raw parts of a literal are always kept as they
  are; the modes differ only in `encodeByte` and `encodeUTF8`.
*/
module Encoding {
  import opened Wrappers
  import opened Text
  import opened Utf8

  datatype EncodingMode = PseudoLatin1 | XUserDefined | NoEncoding

  /** `encodeByte(value)`; the source calls it once with no argument, which yields nothing. */
  function EncodeByte(mode: EncodingMode, value: Option<int>): (r: seq<int>)
    requires value.Some? ==> 0 <= value.value < 0x100
    ensures value.None? || mode == NoEncoding <==> r == []
    ensures mode == PseudoLatin1 && value.Some? ==> r == [value.value]
    ensures mode == XUserDefined && value.Some? ==>
      |r| == 1 && Unmask(r[0]) == value.value && (r[0] >= 0x80 <==> 0xF780 <= r[0] < 0xF800)
  {
    match mode
    case PseudoLatin1 => if value.None? then [] else [value.value]
    case XUserDefined =>
      if value.None? then []
      else if value.value >= 0x80 then [MaskOr(0xF700, value.value)]
      else [value.value]
    case NoEncoding => []
  }

  /**
    `encodeByte(parseInt(digits))`: a byte value as `EncodeByte` encodes it. NaN is no byte: the pseudo-latin1
    and x-user-defined modes hand it to the host's `String.fromCharCode` (NaN fails x-user-defined's `>= 0x80`
    test), whose units are given as `nanChar`; the `none` mode yields nothing.
  */
  function EncodeParsedByte(mode: EncodingMode, value: ParsedInt, nanChar: seq<int>): (r: seq<int>)
    requires value.Int? ==> value.value < 0x100
    ensures value.Int? ==> r == EncodeByte(mode, Some(value.value)) && (r == [] <==> mode == NoEncoding)
    ensures value.NaN? ==> (r == [] <==> mode == NoEncoding || nanChar == [])
    ensures value.NaN? && mode != NoEncoding ==> r == nanChar
  {
    match value
    case Int(v) => EncodeByte(mode, Some(v))
    case NaN => if mode == NoEncoding then [] else nanChar
  }

  /**
    The mode's `encodeUTF8(codepoint)`: plain UTF-8, UTF-8 with the 0xF700 mask, or nothing. NaN fails every
    range test of `encodeUTF8` and takes its warning branch, which yields nothing in every mode.
  */
  function EncodeCodepoint(mode: EncodingMode, codepoint: ParsedInt): (r: seq<int>)
    requires codepoint.Int? ==> codepoint.value <= 0x10FFFF
    ensures r == [] <==> mode == NoEncoding || codepoint.NaN?
    ensures |r| <= 4
  {
    match codepoint
    case NaN => []
    case Int(c) =>
      match mode
      case PseudoLatin1 => EncodeUTF8(c, 0)
      case XUserDefined => EncodeUTF8(c, 0xF700)
      case NoEncoding => []
  }

  /**
    The units of a code point decode back to it: directly in the pseudo-latin1 mode, after removing the mask in
    the x-user-defined mode; the `none` mode, and only it, yields nothing.
  */
  lemma EncodeCodepointDecodes(mode: EncodingMode, codepoint: nat)
    requires codepoint <= 0x10FFFF
    ensures mode == NoEncoding <==> EncodeCodepoint(mode, Int(codepoint)) == []
    ensures mode == PseudoLatin1 ==> DecodeUTF8(EncodeCodepoint(mode, Int(codepoint))) == Some(codepoint)
    ensures mode == XUserDefined ==> DecodeUTF8(UnmaskAll(EncodeCodepoint(mode, Int(codepoint)))) == Some(codepoint)
  {
    DecodeEncode(codepoint);
    MaskedEncoding(codepoint);
    EncodeLength(codepoint, 0);
  }

  /** The byte encoding applied to each unit of a byte sequence, concatenated. */
  function EncodeBytes(mode: EncodingMode, bs: seq<int>): (r: seq<int>)
    requires forall i :: 0 <= i < |bs| ==> 0 <= bs[i] < 0x100
    ensures |r| == if mode == NoEncoding then 0 else |bs|
  {
    if bs == [] then [] else EncodeByte(mode, Some(bs[0])) + EncodeBytes(mode, bs[1..])
  }

  /** Outside the `none` mode every byte becomes exactly one unit, so the concatenation is a unit-wise map. */
  lemma {:induction false} EncodeBytesUnitwise(mode: EncodingMode, bs: seq<int>)
    requires mode != NoEncoding
    requires forall i :: 0 <= i < |bs| ==> 0 <= bs[i] < 0x100
    ensures |EncodeBytes(mode, bs)| == |bs|
    ensures forall i :: 0 <= i < |bs| ==> EncodeBytes(mode, bs)[i] == EncodeByte(mode, Some(bs[i]))[0]
  {
    if bs != [] {
      EncodeBytesUnitwise(mode, bs[1..]);
      var r := EncodeBytes(mode, bs);
      assert r == EncodeByte(mode, Some(bs[0])) + EncodeBytes(mode, bs[1..]);
      forall i | 0 <= i < |bs| ensures r[i] == EncodeByte(mode, Some(bs[i]))[0] {
        if i > 0 {
          assert bs[1..][i - 1] == bs[i];
        }
      }
    }
  }

  /**
    In the x-user-defined and pseudo-latin1 modes a `\u{...}` escape of a non-zero code point gives the same units
    as writing the UTF-8 bytes of the code point one by one as `\ddd` escapes: the bytes are all non-zero, so
    `parseInt` reads each of them as its value. (A zero code point differs: `\u{0}` yields nothing, `\0` reaches
    the host with NaN.)
  */
  lemma {:induction false} CodepointIsBytewise(mode: EncodingMode, codepoint: nat)
    requires 0 < codepoint <= 0x10FFFF
    requires mode != NoEncoding
    ensures forall i :: 0 <= i < |EncodeUTF8(codepoint, 0)| ==> 0 < EncodeUTF8(codepoint, 0)[i] < 0x100
    ensures EncodeCodepoint(mode, ParseInt(codepoint)) == EncodeBytes(mode, EncodeUTF8(codepoint, 0))
  {
    EncodeShape(codepoint);
    MaskedEncoding(codepoint);
    var b := EncodeUTF8(codepoint, 0);
    if |b| == 1 {
      assert b == [codepoint];
    }
    EncodeBytesUnitwise(mode, b);
    var u := EncodeCodepoint(mode, ParseInt(codepoint));
    var e := EncodeBytes(mode, b);
    assert |u| == |e|;
    forall i | 0 <= i < |u| ensures u[i] == e[i] {
      if |b| > 1 {
        assert b[i] >= 0x80;
      }
    }
  }
}
