/** Code-unit strings, digit values, and the lexer's `parseInt`, which reads a run worth 0 as NaN. */
module Text {

  predicate IsDecDigit(c: int)
    ensures IsDecDigit(c) ==> IsHexDigit(c)
  {
    48 <= c <= 57
  }

  /** Digits and the letters a-f in either case: ASCII units only. */
  predicate IsHexDigit(c: int)
    ensures IsHexDigit(c) ==> 48 <= c < 128
  {
    (48 <= c <= 57) || (97 <= c <= 102) || (65 <= c <= 70)
  }

  /** The value of one hexadecimal digit. */
  function HexDigitValue(c: int): (v: nat)
    requires IsHexDigit(c)
    ensures v < 16
    ensures IsDecDigit(c) ==> v == c - 48
  {
    if c <= 57 then c - 48 else if c >= 97 then c - 97 + 10 else c - 65 + 10
  }

  /** The value of a run of decimal digits (0 for the empty run). */
  function DecValue(s: seq<int>): (v: nat)
    requires forall i :: 0 <= i < |s| ==> IsDecDigit(s[i])
  {
    if s == [] then 0 else assert IsDecDigit(s[|s| - 1]); DecValue(s[..|s| - 1]) * 10 + (s[|s| - 1] - 48)
  }

  /** The value of a run of hexadecimal digits (0 for the empty run). */
  function HexValue(s: seq<int>): (v: nat)
    requires forall i :: 0 <= i < |s| ==> IsHexDigit(s[i])
  {
    if s == [] then 0 else HexValue(s[..|s| - 1]) * 16 + HexDigitValue(s[|s| - 1])
  }

  /**
    What `parseInt` returns: the host's `tonumber` of the digits, floored, or NaN when that number is falsy. Under
    the JavaScript truthiness the source is compiled with, 0 is falsy, so a run worth 0 gives NaN.
  */
  datatype ParsedInt = NaN | Int(value: nat)

  function ParseInt(v: nat): ParsedInt {
    if v == 0 then NaN else Int(v)
  }

  /** `parseInt(s, 10)` of a run of decimal digits: NaN exactly when the run is worth 0 (see `DecValueZero`). */
  function ParseDec(s: seq<int>): (r: ParsedInt)
    requires forall i :: 0 <= i < |s| ==> IsDecDigit(s[i])
    ensures r.NaN? <==> DecValue(s) == 0
    ensures r.Int? ==> r.value == DecValue(s) > 0
  {
    ParseInt(DecValue(s))
  }

  /** `parseInt(s, 16)` of a run of hexadecimal digits: NaN exactly when the run is worth 0 (see `HexValueZero`). */
  function ParseHex(s: seq<int>): (r: ParsedInt)
    requires forall i :: 0 <= i < |s| ==> IsHexDigit(s[i])
    ensures r.NaN? <==> HexValue(s) == 0
    ensures r.Int? ==> r.value == HexValue(s) > 0
  {
    ParseInt(HexValue(s))
  }

  /** A decimal run is worth 0 exactly when all its digits are `0`. */
  lemma {:induction false} DecValueZero(s: seq<int>)
    requires forall i :: 0 <= i < |s| ==> IsDecDigit(s[i])
    ensures DecValue(s) == 0 <==> forall i :: 0 <= i < |s| ==> s[i] == 48
  {
    if s != [] {
      var t := s[..|s| - 1];
      DecValueZero(t);
      assert forall i :: 0 <= i < |t| ==> t[i] == s[i];
    }
  }

  /** A hexadecimal run is worth 0 exactly when all its digits are `0`. */
  lemma {:induction false} HexValueZero(s: seq<int>)
    requires forall i :: 0 <= i < |s| ==> IsHexDigit(s[i])
    ensures HexValue(s) == 0 <==> forall i :: 0 <= i < |s| ==> s[i] == 48
  {
    if s != [] {
      var t := s[..|s| - 1];
      HexValueZero(t);
      assert forall i :: 0 <= i < |t| ==> t[i] == s[i];
    }
  }

  /**
    `parseInt` of the two digits of a `\xXX` escape, as `ParseHex` reads the two-digit run: NaN for `00`, otherwise
    a byte value.
  */
  function ParseHexPair(a: int, b: int): (r: ParsedInt)
    requires IsHexDigit(a) && IsHexDigit(b)
    ensures r == ParseHex([a, b])
    ensures r.NaN? <==> a == 48 && b == 48
    ensures r.Int? ==> r.value < 0x100
  {
    assert [a, b][..1] == [a] && [a][..0] == [];
    assert HexValue([a]) == HexDigitValue(a);
    ParseInt(HexDigitValue(a) * 16 + HexDigitValue(b))
  }

  function Pow(b: nat, e: nat): (r: nat)
    ensures b > 0 ==> r > 0
  {
    if e == 0 then 1 else b * Pow(b, e - 1)
  }

  /** A run of n decimal digits has a value below 10^n; in particular a `\ddd` of at most three digits is below 1000. */
  lemma {:induction false} DecValueBound(s: seq<int>)
    requires forall i :: 0 <= i < |s| ==> IsDecDigit(s[i])
    ensures DecValue(s) < Pow(10, |s|)
  {
    if s != [] {
      DecValueBound(s[..|s| - 1]);
    }
  }

  /** A run of n hexadecimal digits has a value below 16^n; six digits stay below 0x1000000. */
  lemma {:induction false} HexValueBound(s: seq<int>)
    requires forall i :: 0 <= i < |s| ==> IsHexDigit(s[i])
    ensures HexValue(s) < Pow(16, |s|)
  {
    if s != [] {
      HexValueBound(s[..|s| - 1]);
    }
  }

  /** Leading zeros do not change the value of a hexadecimal run (the `\u{...}` reader skips them). */
  lemma {:induction false} HexValueLeadingZero(s: seq<int>)
    requires forall i :: 0 <= i < |s| ==> IsHexDigit(s[i])
    ensures HexValue([48] + s) == HexValue(s)
  {
    if s != [] {
      HexValueLeadingZero(s[..|s| - 1]);
      assert ([48] + s)[..|[48] + s| - 1] == [48] + s[..|s| - 1];
    }
  }

  /** The three-digit decimal spelling of a value below 1000, with leading zeros; its digits are worth `v`. */
  function DecimalSpelling(v: nat): (s: seq<int>)
    requires v < 1000
    ensures |s| == 3 && forall i :: 0 <= i < 3 ==> IsDecDigit(s[i])
    ensures DecValue(s) == v
  {
    var s := [48 + v / 100, 48 + v / 10 % 10, 48 + v % 10];
    assert s[..2][..1] == [s[0]] && [s[0]][..0] == [] && s[..2] == [s[0], s[1]];
    assert DecValue([s[0]]) == v / 100;
    assert DecValue(s[..2]) == v / 100 * 10 + v / 10 % 10 == v / 10;
    s
  }

  /** A decimal digit, or a hexadecimal one when `hex`. */
  predicate IsDigit(c: int, hex: bool) { if hex then IsHexDigit(c) else IsDecDigit(c) }

  /** The end of the longest run of digits in `s` from `i`. */
  function RunEnd(s: seq<int>, i: nat, hex: bool): (j: nat)
    requires i <= |s|
    ensures i <= j <= |s|
    ensures forall k :: i <= k < j ==> IsDigit(s[k], hex)
    ensures j < |s| ==> !IsDigit(s[j], hex)
    decreases |s| - i
  {
    if i < |s| && IsDigit(s[i], hex) then RunEnd(s, i + 1, hex) else i
  }

  /** The end of the run of `0` digits in `s` from `i`; it never passes the run of hexadecimal digits there. */
  function ZerosEnd(s: seq<int>, i: nat): (j: nat)
    requires i <= |s|
    ensures i <= j <= RunEnd(s, i, true)
    ensures forall k :: i <= k < j ==> s[k] == 48
    ensures j < |s| ==> s[j] != 48
    decreases |s| - i
  {
    if i < |s| && s[i] == 48 then ZerosEnd(s, i + 1) else i
  }

  /** Any position that ends a run of digits from `i` is the run's end. */
  lemma {:induction false} RunEndIs(s: seq<int>, i: nat, j: nat, hex: bool)
    requires i <= j <= |s|
    requires forall k :: i <= k < j ==> IsDigit(s[k], hex)
    requires j < |s| ==> !IsDigit(s[j], hex)
    ensures RunEnd(s, i, hex) == j
    decreases j - i
  {
    if i < j {
      RunEndIs(s, i + 1, j, hex);
    }
  }

  /** Dropping any number of leading zeros keeps the value of a hexadecimal run. */
  lemma {:induction false} LeadingZerosValue(s: seq<int>, k: nat)
    requires k <= |s|
    requires forall i :: 0 <= i < |s| ==> IsHexDigit(s[i])
    requires forall i :: 0 <= i < k ==> s[i] == 48
    ensures HexValue(s) == HexValue(s[k..])
  {
    if k > 0 {
      HexValueLeadingZero(s[1..]);
      assert s == [48] + s[1..];
      LeadingZerosValue(s[1..], k - 1);
      assert s[1..][k - 1..] == s[k..];
    }
  }

  /** A run of zeros then at most six digits has the value of those digits, below 0x1000000. */
  lemma DigitsValue(s: seq<int>, k: nat)
    requires k <= |s| && |s| - k <= 6
    requires forall i :: 0 <= i < k ==> s[i] == 48
    requires forall i :: k <= i < |s| ==> IsHexDigit(s[i])
    ensures HexValue(s) == HexValue(s[k..]) < 0x1000000
  {
    LeadingZerosValue(s, k);
    SixDigitsBound(s[k..]);
  }

  /** At most six hexadecimal digits stay below 0x1000000. */
  lemma {:induction false} SixDigitsBound(s: seq<int>)
    requires |s| <= 6
    requires forall i :: 0 <= i < |s| ==> IsHexDigit(s[i])
    ensures HexValue(s) < 0x1000000
  {
    HexValueBound(s);
    PowMonotone(16, |s|, 6);
    assert Pow(16, 6) == 0x1000000;
  }

  lemma {:induction false} PowMonotone(b: nat, m: nat, n: nat)
    requires 1 <= b && m <= n
    ensures Pow(b, m) <= Pow(b, n)
  {
    if m < n {
      PowMonotone(b, m, n - 1);
    }
  }

  /** A run with a non-zero first digit is at least 16^(n-1). */
  lemma {:induction false} HexValueLowerBound(s: seq<int>)
    requires |s| > 0 && s[0] != 48
    requires forall i :: 0 <= i < |s| ==> IsHexDigit(s[i])
    ensures HexValue(s) >= Pow(16, |s| - 1)
  {
    if |s| > 1 {
      HexValueLowerBound(s[..|s| - 1]);
    }
  }

  /** Seven or more digits after the leading zeros reach 0x1000000. */
  lemma ManyDigitsValue(s: seq<int>, k: nat)
    requires k < |s| && |s| - k > 6 && s[k] != 48
    requires forall i :: 0 <= i < k ==> s[i] == 48
    requires forall i :: k <= i < |s| ==> IsHexDigit(s[i])
    ensures HexValue(s) >= 0x1000000
  {
    LeadingZerosValue(s, k);
    HexValueLowerBound(s[k..]);
    PowMonotone(16, 6, |s| - k - 1);
    assert Pow(16, 6) == 0x1000000;
  }

  /** A run of digits from `i` reaches at least as far as any digits known to follow `i`. */
  lemma {:induction false} RunEndAtLeast(s: seq<int>, i: nat, j: nat, hex: bool)
    requires i <= j <= |s|
    requires forall k :: i <= k < j ==> IsDigit(s[k], hex)
    ensures RunEnd(s, i, hex) >= j
    decreases j - i
  {
    if i < j {
      RunEndAtLeast(s, i + 1, j, hex);
    }
  }

  /** The end of the run of `=` signs in `s` from `i`. */
  function EqualsRun(s: seq<int>, i: nat): (j: nat)
    requires i <= |s|
    ensures i <= j <= |s|
    ensures forall k :: i <= k < j ==> s[k] == 61
    ensures j < |s| ==> s[j] != 61
    decreases |s| - i
  {
    if i < |s| && s[i] == 61 then EqualsRun(s, i + 1) else i
  }

  /** Any position that ends a run of `=` signs from `i` is the run's end. */
  lemma {:induction false} EqualsRunIs(s: seq<int>, i: nat, j: nat)
    requires i <= j <= |s|
    requires forall k :: i <= k < j ==> s[k] == 61
    requires j < |s| ==> s[j] != 61
    ensures EqualsRun(s, i) == j
    decreases j - i
  {
    if i < j {
      EqualsRunIs(s, i + 1, j);
    }
  }
}
