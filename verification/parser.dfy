/**
  The parser: the lexer cursor, the token window, the scope tracker, the location-marker stack and the
  recursive-descent parse functions, all as one object whose fields are the source's module-level state.
*/
module LuaParser {
  import opened Wrappers
  import opened Text
  import opened LuaFeatures
  import opened CharClass
  import opened Encoding
  import opened Tokens
  import opened Errors
  import opened Ast
  import opened Markers
  import opened Scopes
  import opened Flow
  import opened Precedence
  import opened Grammar
  import L = Lexemes

  /** The options that change the result of a parse (the callbacks and `wait` are left out). */
  datatype Options = Options(
    comments: bool,
    scope: bool,
    locations: bool,
    ranges: bool,
    luaVersion: LuaVersion,
    encodingMode: EncodingMode,
    extendedIdentifiers: Option<bool>)

  /** `defaultOptions`. */
  const DefaultOptions: Options := Options(true, false, false, false, Lua51, NoEncoding, None)

  /** The units `consumeEOL` takes at `i`: none off a line terminator, two for `\r\n` or `\n\r`, else one. */
  function EolLength(s: seq<int>, i: int): (n: nat)
    ensures n <= 2
    ensures n == 0 <==> !(0 <= i < |s| && IsLineTerminator(s[i]))
    ensures n == 2 ==> i + 1 < |s| && IsLineTerminator(s[i + 1]) && s[i] != s[i + 1]
  {
    if 0 <= i < |s| && IsLineTerminator(s[i]) then
      if i + 1 < |s| && ((s[i] == 10 && s[i + 1] == 13) || (s[i] == 13 && s[i + 1] == 10)) then 2 else 1
    else 0
  }

  /** The named escapes `\a \b \f \n \r \t \v` (section 3.1 of the Lua 5.3 manual) and the units they stand for. */
  function SimpleEscape(c: int): (r: Option<int>)
    ensures r.Some? <==> c in {97, 98, 102, 110, 114, 116, 118}
    ensures r.Some? ==> 7 <= r.value <= 13
  {
    if c == 97 then Some(7)
    else if c == 98 then Some(8)
    else if c == 102 then Some(12)
    else if c == 110 then Some(10)
    else if c == 114 then Some(13)
    else if c == 116 then Some(9)
    else if c == 118 then Some(11)
    else None
  }

  /** What one step of the lexer read: the units it stands for, and the cursor and the line bookkeeping after it. */
  datatype Lexed = Lexed(value: seq<int>, index: int, line: int, lineStart: int)

  /**
    A lexer method's result and final state agree with the reading `x`: the same units and the same cursor and
    lines on success, the same error on failure.
  */
  predicate Agrees(r: Result<seq<int>, SyntaxError>, x: Result<Lexed, SyntaxError>, index: int, line: int, lineStart: int) {
    if x.Success? then r == Success(x.value.value) && index == x.value.index && line == x.value.line && lineStart == x.value.lineStart
    else r == Failure(x.error)
  }

  /** The scanner `lex` hands a token to, by the token's first unit and the unit after it. */
  datatype Scanner = WordScanner | QuotedScanner | NumeralScanner | LongStringScanner | OperatorScanner

  /** The token types each scanner produces. */
  predicate ScannedKind(s: Scanner, t: TokenType) {
    match s
    case WordScanner => t in {Keyword, BooleanLiteral, NilLiteral, TokenType.Identifier}
    case QuotedScanner | LongStringScanner => t == StringLiteral
    case NumeralScanner => t == NumericLiteral
    case OperatorScanner => t == Punctuator || t == VarargLiteral
  }

  /** The targets of an assignment or call statement, whether the last is assignable or a call, and its marker. */
  datatype Targets = Targets(targets: seq<Node>, lvalue: Option<bool>, marker: Marker)

  class Parser {
    const input: seq<int>
    const options: Options
    const features: Features := VersionFeatures(options.luaVersion, options.extendedIdentifiers)
    const encoding: EncodingMode := options.encodingMode
    const trackLocations: bool := options.locations || options.ranges
    /** The units the host's `String.fromCharCode(NaN)` returns; the host's code is not part of this model. */
    const nanChar: seq<int>

    var index: int
    var line: int
    var lineStart: int
    var tokenStart: int
    var token: Option<Token>
    var lookahead: Option<Token>
    var previousToken: Option<Token>
    var comments: seq<Node>
    var scopes: seq<seq<seq<int>>>
    var scopeDepth: int
    var globals: seq<Node>
    var locations: seq<Marker>

    /** The parser of `parse(input, options)` after its rewind, before the first token is read. */
    constructor (input: seq<int>, options: Options, nanChar: seq<int>)
      ensures this.input == input && this.options == options && this.nanChar == nanChar
      ensures index == 0 && line == 1 && lineStart == 0 && tokenStart == 0
      ensures token.None? && lookahead.None? && previousToken.None?
      ensures comments == [] && scopes == [[]] && scopeDepth == 0 && globals == [] && locations == []
    {
      this.input := input;
      this.options := options;
      this.nanChar := nanChar;
      index := 0;
      line := 1;
      lineStart := 0;
      tokenStart := 0;
      token := None;
      lookahead := None;
      previousToken := None;
      comments := [];
      scopes := [[]];
      scopeDepth := 0;
      globals := [];
      locations := [];
    }

    /** `String.charCodeAt(input, i)`: the unit, or `NoChar` outside the input. */
    function CharAt(i: int): (c: int)
    {
      if 0 <= i < |input| then input[i] else NoChar
    }

    /** `String.charAt(input, i)` as a sequence: one unit, or empty outside the input. */
    function CharString(i: int): (s: seq<int>)
    {
      if 0 <= i < |input| then [input[i]] else []
    }

    /** The cursor lies inside the input and the line bookkeeping is sane. */
    predicate LexOk()
      reads this`line, this`lineStart, this`index
    {
      1 <= line && 0 <= lineStart <= index <= |input|
    }

    /** `raise(undefined, ...)`: an error at the lexer's cursor. */
    function Here(kind: ErrorKind): (e: SyntaxError)
      reads this`line, this`lineStart, this`index
    {
      RaiseHere(kind, line, lineStart, index)
    }

    // ---------------------------------------------------------------- lexer

    /**
      `consumeEOL`: only `\n` or `\r` is consumed, `\r\n` and `\n\r` as one terminator; the line count goes up
      by one and the line starts after the terminator.
    */
    method ConsumeEOL() returns (b: bool)
      modifies this`index, this`line, this`lineStart
      ensures b <==> IsLineTerminator(CharAt(old(index)))
      ensures b ==> index == old(index) + EolLength(input, old(index)) && line == old(line) + 1 && lineStart == index
      ensures !b ==> index == old(index) && line == old(line) && lineStart == old(lineStart)
    {
      var charCode := CharAt(index);
      var peekCharCode := CharAt(index + 1);
      if IsLineTerminator(charCode) {
        if 10 == charCode && 13 == peekCharCode {
          index := index + 1;
        }
        if 13 == charCode && 10 == peekCharCode {
          index := index + 1;
        }
        line := line + 1;
        index := index + 1;
        lineStart := index;
        return true;
      }
      return false;
    }

    /** The first unit from `i` that is neither a space nor a line terminator (or the end of the input). */
    function BlankRunEnd(i: int): (e: int)
      requires 0 <= i <= |input|
      ensures i <= e <= |input|
      ensures forall k :: i <= k < e ==> IsWhiteSpace(input[k]) || IsLineTerminator(input[k])
      ensures e < |input| ==> !IsWhiteSpace(input[e]) && !IsLineTerminator(input[e])
      decreases |input| - i
    {
      if i < |input| && (IsWhiteSpace(input[i]) || IsLineTerminator(input[i])) then BlankRunEnd(i + 1) else i
    }

    /**
      Where `skipWhiteSpace` stops when it starts at `i` on line `line`, which began at `lineStart`: the first unit
      that is neither a space nor a line break, with one more line for each break (`\r\n` and `\n\r` count once)
      and the line starting after the last break.
    */
    function SkipBlank(i: int, line: int, lineStart: int): (r: (int, int, int))
      requires 0 <= i <= |input|
      ensures i <= r.0 <= |input| && line <= r.1
      decreases |input| - i
    {
      if i < |input| && IsWhiteSpace(input[i]) then SkipBlank(i + 1, line, lineStart)
      else if i < |input| && IsLineTerminator(input[i]) then
        var j := i + EolLength(input, i);
        SkipBlank(j, line + 1, j)
      else (i, line, lineStart)
    }

    /**
      `SkipBlank` stops where the run of blanks and line breaks ends; the line start moves only with a new line,
      and then to just after a line terminator inside the run.
    */
    lemma {:induction false} SkipBlankStops(i: int, line: int, lineStart: int)
      requires 0 <= i <= |input|
      ensures var r := SkipBlank(i, line, lineStart);
        && r.0 == BlankRunEnd(i)
        && (r.1 == line ==> r.2 == lineStart)
        && (r.1 > line ==> i < r.2 <= r.0 && IsLineTerminator(input[r.2 - 1]))
      decreases |input| - i
    {
      if i < |input| && IsWhiteSpace(input[i]) {
        SkipBlankStops(i + 1, line, lineStart);
      } else if i < |input| && IsLineTerminator(input[i]) {
        var j := i + EolLength(input, i);
        SkipBlankStops(j, line + 1, j);
      }
    }

    /** One step of `SkipBlank` at a unit of the input. */
    lemma SkipBlankStep(i: int, line: int, lineStart: int)
      requires 0 <= i < |input|
      ensures IsWhiteSpace(input[i]) ==> SkipBlank(i, line, lineStart) == SkipBlank(i + 1, line, lineStart)
      ensures !IsWhiteSpace(input[i]) && IsLineTerminator(input[i]) ==>
        var j := i + EolLength(input, i);
        j <= |input| && SkipBlank(i, line, lineStart) == SkipBlank(j, line + 1, j)
      ensures !IsWhiteSpace(input[i]) && !IsLineTerminator(input[i]) ==> SkipBlank(i, line, lineStart) == (i, line, lineStart)
    {
    }

    /** `skipWhiteSpace`: the cursor and the lines as `SkipBlank` says. */
    method SkipWhiteSpace()
      requires LexOk()
      modifies this`index, this`line, this`lineStart
      ensures LexOk()
      ensures (index, line, lineStart) == SkipBlank(old(index), old(line), old(lineStart))
    {
      ghost var stop := SkipBlank(index, line, lineStart);
      while index < |input|
        invariant LexOk()
        invariant SkipBlank(index, line, lineStart) == stop
        decreases |input| - index
      {
        var charCode := CharAt(index);
        ghost var i, l, ls := index, line, lineStart;
        if IsWhiteSpace(charCode) {
          assert SkipBlank(i + 1, l, ls) == stop by { SkipBlankStep(i, l, ls); }
          index := index + 1;
        } else {
          var eol := ConsumeEOL();
          if !eol {
            assert SkipBlank(i, l, ls) == (i, l, ls) by { SkipBlankStep(i, l, ls); }
            break;
          }
          assert SkipBlank(index, line, lineStart) == stop by {
            assert CharAt(i) == input[i] && IsLineTerminator(input[i]) && !IsWhiteSpace(input[i]);
            SkipBlankStep(i, l, ls);
            assert index == i + EolLength(input, i) && line == l + 1 && lineStart == index;
          }
        }
      }
    }

    /** A token in the range [tokenStart, index) on the current line. */
    function TokenHere(kind: TokenType, value: TokenValue): (t: Token)
      reads this`line, this`lineStart, this`index, this`tokenStart
    {
      Token(kind, value, line, lineStart, tokenStart, index, None, None)
    }

    /**
      `scanIdentifierOrKeyword`: the longest run of identifier units from the token start, classified as a
      keyword, a boolean, nil or a name.
    */
    method ScanIdentifierOrKeyword() returns (t: Token)
      requires LexOk() && tokenStart == index < |input| && IsIdentifierStart(input[index], features)
      modifies this`index
      ensures LexOk() && tokenStart < index && IsIdentifierStart(input[tokenStart], features)
      ensures forall i :: tokenStart <= i < index ==> IsIdentifierPart(input[i], features)
      ensures !IsIdentifierPart(CharAt(index), features)
      ensures (t.kind, t.value) == ClassifyWord(input[tokenStart..index], features)
      ensures t == TokenHere(t.kind, t.value)
    {
      ClassesDisjoint(input[index], features);
      index := index + 1;
      while IsIdentifierPart(CharAt(index), features)
        invariant tokenStart < index <= |input|
        invariant forall i :: tokenStart <= i < index ==> IsIdentifierPart(input[i], features)
        decreases |input| - index
      {
        index := index + 1;
      }
      var c := ClassifyWord(input[tokenStart..index], features);
      t := TokenHere(c.0, c.1);
    }

    /** `scanPunctuator(value)`: the punctuator the dispatch in `lex` already validated. */
    method ScanPunctuator(value: seq<int>) returns (t: Token)
      requires LexOk() && tokenStart == index && index + |value| <= |input| && input[index..index + |value|] == value
      modifies this`index
      ensures LexOk() && index == old(index) + |value|
      ensures t == TokenHere(Punctuator, Text(value))
    {
      index := index + |value|;
      t := TokenHere(Punctuator, Text(value));
    }

    /** `scanVarargLiteral`: three dots. */
    method ScanVarargLiteral() returns (t: Token)
      requires LexOk() && tokenStart == index && index + 3 <= |input|
      modifies this`index
      ensures LexOk() && index == old(index) + 3
      ensures t == TokenHere(VarargLiteral, Text(L.Ellipsis))
    {
      index := index + 3;
      t := TokenHere(VarargLiteral, Text(L.Ellipsis));
    }
  
    /**
      The `\u{...}` escape whose `u` is at `i`, as `readUnicodeEscapeSequence` reads it: a `{` must follow, and
      then the digits `BracedCodepointAt` reads. What it reads is well formed (`IsUnicodeEscape`), and stands for
      its code point in the chosen encoding.
    */
    function UnicodeEscapeAt(i: int, line: int, lineStart: int): (r: Result<Lexed, SyntaxError>)
      requires 0 <= i < |input|
      ensures r.Success? ==> i + 4 <= r.value.index <= |input| && r.value.line == line && r.value.lineStart == lineStart
      ensures r.Success? && input[i] == 117 ==>
        IsUnicodeEscape(i, r.value.index) && r.value.value == EncodeCodepoint(encoding, ParseHex(input[i + 2..r.value.index - 1]))
    {
      if CharAt(i + 1) != 123 then Failure(RaiseHere(BraceExpected(L.LBrace), line, lineStart, i + 2))
      else BracedCodepointAt(i + 2, line, lineStart)
    }

    /**
      The digits of a `\u{...}` escape from `s`, right after the `{`: at least one hexadecimal digit; leading
      zeros are skipped and a seventh significant digit raises `tooLargeCodepoint` right after it; otherwise the
      closing brace is checked by `CodepointCloseAt`.
    */
    function BracedCodepointAt(s: int, line: int, lineStart: int): (r: Result<Lexed, SyntaxError>)
      requires 0 <= s <= |input|
      ensures r.Success? ==> s + 2 <= r.value.index <= |input| && r.value.line == line && r.value.lineStart == lineStart
    {
      if !IsHexDigit(CharAt(s)) then Failure(RaiseHere(HexadecimalDigitExpected, line, lineStart, s))
      else
        var z := ZerosEnd(input, s);
        var e := RunEnd(input, s, true);
        if e - z > 6 then Failure(RaiseHere(TooLargeCodepoint, line, lineStart, z + 7))
        else CodepointCloseAt(s, e, line, lineStart)
    }

    /**
      The end of a `\u{...}` escape whose digits span [s, e): a quote where the `}` should be raises `'}' expected`
      at the quote, any other unit raises `hexadecimalDigitExpected` after it; a value above U+10FFFF raises
      `tooLargeCodepoint` after the `}`; otherwise the code point in the chosen encoding, with the cursor after `}`.
    */
    function CodepointCloseAt(s: int, e: int, line: int, lineStart: int): (r: Result<Lexed, SyntaxError>)
      requires 0 <= s <= e <= |input| && forall k :: s <= k < e ==> IsHexDigit(input[k])
      ensures r.Success? ==> r.value.index == e + 1 <= |input| && CharAt(e) == 125 && HexValue(input[s..e]) <= 0x10FFFF
    {
      var b := CharAt(e);
      if b != 125 then
        if b == 34 || b == 39 then Failure(RaiseHere(BraceExpected(L.RBrace), line, lineStart, e))
        else Failure(RaiseHere(HexadecimalDigitExpected, line, lineStart, e + 1))
      else
        var codepoint := ParseHex(input[s..e]);
        if codepoint.Int? && codepoint.value > 0x10FFFF then Failure(RaiseHere(TooLargeCodepoint, line, lineStart, e + 1))
        else Success(Lexed(EncodeCodepoint(encoding, codepoint), e + 1, line, lineStart))
    }

    /** The units in [a, b) are all `0`. */
    predicate ZeroRun(a: int, b: int)
      requires 0 <= a <= b <= |input|
      decreases b - a
    {
      a == b || (input[b - 1] == 48 && ZeroRun(a, b - 1))
    }

    /** A digit run is all zeros exactly when `parseInt` reads it as NaN. */
    lemma {:induction false} ZeroRunIsNaN(a: int, b: int, hex: bool)
      requires 0 <= a <= b <= |input|
      requires hex ==> forall k :: a <= k < b ==> IsHexDigit(input[k])
      requires !hex ==> forall k :: a <= k < b ==> IsDecDigit(input[k])
      ensures hex ==> (ZeroRun(a, b) <==> ParseHex(input[a..b]).NaN?)
      ensures !hex ==> (ZeroRun(a, b) <==> ParseDec(input[a..b]).NaN?)
      decreases b - a
    {
      if a < b {
        ZeroRunIsNaN(a, b - 1, hex);
        var s := input[a..b];
        assert s[..|s| - 1] == input[a..b - 1] && s[|s| - 1] == input[b - 1];
      }
    }

    /**
      Every well-formed `\u{...}` escape is read up to its `}`, as `parseInt` of its digits in the chosen encoding.
      Digits that are all zeros give NaN, which encodes to nothing; any other value is a code point that decodes
      back from its units.
    */
    lemma UnicodeEscapeComplete(i: int, j: int, line: int, lineStart: int)
      requires IsUnicodeEscape(i, j)
      ensures UnicodeEscapeAt(i, line, lineStart) == Success(Lexed(EncodeCodepoint(encoding, ParseHex(input[i + 2..j - 1])), j, line, lineStart))
      ensures var u := UnicodeEscapeAt(i, line, lineStart).value.value;
        u == [] <==> encoding == NoEncoding || ZeroRun(i + 2, j - 1)
    {
      var s, e := i + 2, j - 1;
      RunEndIs(input, s, e, true);
      SignificantDigits(s, ZerosEnd(input, s), e);
      assert BracedCodepointAt(s, line, lineStart) == CodepointCloseAt(s, e, line, lineStart);
      var codepoint := ParseHex(input[s..e]);
      assert CodepointCloseAt(s, e, line, lineStart) == Success(Lexed(EncodeCodepoint(encoding, codepoint), j, line, lineStart));
      ZeroRunIsNaN(s, e, true);
    }

    /** Seven or more significant digits, or a closed value above U+10FFFF, raise `tooLargeCodepoint`. */
    lemma UnicodeEscapeTooLarge(i: int, line: int, lineStart: int)
      requires 0 <= i && i + 2 <= |input| && CharAt(i + 1) == 123 && CodepointTooLarge(i + 2)
      ensures UnicodeEscapeAt(i, line, lineStart).Failure?
      ensures UnicodeEscapeAt(i, line, lineStart).error.kind == TooLargeCodepoint
    {
      var s := i + 2;
      SignificantDigits(s, ZerosEnd(input, s), RunEnd(input, s, true));
    }

    /**
      A `\u{...}` whose digits are not followed by `}`: a quote there raises `'}' expected` at the quote, any other
      unit raises `hexadecimalDigitExpected` after it.
    */
    lemma UnicodeEscapeUnclosed(i: int, line: int, lineStart: int)
      requires 0 <= i && i + 2 <= |input| && CharAt(i + 1) == 123 && IsHexDigit(CharAt(i + 2))
      requires HexValue(input[i + 2..RunEnd(input, i + 2, true)]) < 0x1000000 && CharAt(RunEnd(input, i + 2, true)) != 125
      ensures var e := RunEnd(input, i + 2, true);
        && UnicodeEscapeAt(i, line, lineStart).Failure?
        && UnicodeEscapeAt(i, line, lineStart).error.index == (if CharAt(e) == 34 || CharAt(e) == 39 then e else e + 1)
        && (CharAt(e) == 34 || CharAt(e) == 39 <==> UnicodeEscapeAt(i, line, lineStart).error.kind == BraceExpected(L.RBrace))
        && (CharAt(e) != 34 && CharAt(e) != 39 <==> UnicodeEscapeAt(i, line, lineStart).error.kind == HexadecimalDigitExpected)
    {
      var s := i + 2;
      SignificantDigits(s, ZerosEnd(input, s), RunEnd(input, s, true));
    }

    /**
      The run of hexadecimal digits [s, e) whose leading zeros end at `z` has more than six significant digits
      exactly when it is worth 0x1000000 or more, and leaving out the zeros keeps its value.
    */
    lemma SignificantDigits(s: int, z: int, e: int)
      requires 0 <= s <= |input| && z == ZerosEnd(input, s) && e == RunEnd(input, s, true)
      ensures e - z > 6 <==> HexValue(input[s..e]) >= 0x1000000
      ensures HexValue(input[s..e]) == HexValue(input[z..e])
    {
      var d, k := input[s..e], z - s;
      assert d[k..] == input[z..e];
      assert forall i :: 0 <= i < k ==> d[i] == 48 by {
        forall i | 0 <= i < k ensures d[i] == 48 { assert d[i] == input[s + i]; }
      }
      assert forall i :: k <= i < |d| ==> IsHexDigit(d[i]) by {
        forall i | k <= i < |d| ensures IsHexDigit(d[i]) { assert d[i] == input[s + i]; }
      }
      if e - z > 6 {
        ManyDigitsValue(d, k);
      } else {
        DigitsValue(d, k);
      }
      LeadingZerosValue(d, k);
    }

    /**
      The digit loops of `readUnicodeEscapeSequence`: leading zeros are skipped up to `escStart`, then digits are
      read until the run ends or a seventh significant digit has been read, which sets `tooMany`.
    */
    method ReadCodepointDigits() returns (escStart: int, tooMany: bool)
      requires LexOk()
      modifies this`index
      ensures LexOk() && escStart == ZerosEnd(input, old(index))
      ensures tooMany <==> RunEnd(input, old(index), true) - escStart > 6
      ensures tooMany ==> index == escStart + 7
      ensures !tooMany ==> index == RunEnd(input, old(index), true)
    {
      var start := index;
      SkipZeros();
      escStart := index;
      tooMany := ReadSignificantDigits(start);
    }

    /** The leading zeros of a code point. */
    method SkipZeros()
      requires LexOk()
      modifies this`index
      ensures LexOk() && index == ZerosEnd(input, old(index))
    {
      while CharAt(index) == 48
        invariant LexOk() && ZerosEnd(input, index) == ZerosEnd(input, old(index))
        decreases |input| - index
      {
        index := index + 1;
      }
    }

    /**
      The digits of a code point after its leading zeros, which began at `start`: at most six are read, and a
      seventh stops the scan with `tooMany`.
    */
    method ReadSignificantDigits(start: int) returns (tooMany: bool)
      requires LexOk() && 0 <= start <= index && index == ZerosEnd(input, start)
      modifies this`index
      ensures LexOk()
      ensures tooMany <==> RunEnd(input, start, true) - old(index) > 6
      ensures tooMany ==> index == old(index) + 7
      ensures !tooMany ==> index == RunEnd(input, start, true)
    {
      var first := index;
      // the source gives up as soon as a seventh significant digit is read
      while IsHexDigit(CharAt(index)) && index - first <= 6
        invariant LexOk() && first <= index && index - first <= 7
        invariant forall k :: first <= k < index ==> IsHexDigit(input[k])
        decreases |input| - index
      {
        index := index + 1;
      }
      if index - first > 6 {
        RunEndAtLeast(input, start, index, true);
        return true;
      }
      RunEndIs(input, start, index, true);
      return false;
    }

    /** `readUnicodeEscapeSequence`, entered on the `u`: as `UnicodeEscapeAt` reads it. */
    method ReadUnicodeEscapeSequence() returns (r: Result<seq<int>, SyntaxError>)
      requires LexOk() && index < |input| && input[index] == 117
      modifies this`index
      ensures Agrees(r, UnicodeEscapeAt(old(index), line, lineStart), index, line, lineStart)
    {
      index := index + 1;
      var brace := CharAt(index);
      index := index + 1;
      if brace != 123 {
        return Failure(Here(BraceExpected(L.LBrace)));
      }
      r := ReadBracedCodepoint();
    }

    /**
      The digit run from `start`, the first unit after `{`, is worth 0x1000000 or more (more than six significant
      digits), or it is closed by `}` and is above U+10FFFF.
    */
    predicate CodepointTooLarge(start: int)
      requires 0 <= start <= |input|
    {
      var e := RunEnd(input, start, true);
      HexValue(input[start..e]) >= 0x1000000 || (CharAt(e) == 125 && HexValue(input[start..e]) > 0x10FFFF)
    }

    /** The part of `readUnicodeEscapeSequence` after the `{`: as `BracedCodepointAt` reads it. */
    method ReadBracedCodepoint() returns (r: Result<seq<int>, SyntaxError>)
      requires LexOk()
      modifies this`index
      ensures Agrees(r, BracedCodepointAt(old(index), line, lineStart), index, line, lineStart)
    {
      var start := index;
      if !IsHexDigit(CharAt(index)) {
        return Failure(Here(HexadecimalDigitExpected));
      }
      var escStart, tooMany := ReadCodepointDigits();
      if tooMany {
        return Failure(Here(TooLargeCodepoint));
      }
      SignificantDigits(start, escStart, index);
      r := CloseCodepoint(start, escStart);
    }

    /**
      After the digits of a braced codepoint that starts at `start` and whose significant digits start at
      `escStart`: the closing brace, then the range check, as `CodepointCloseAt` says.
    */
    method CloseCodepoint(start: int, escStart: int) returns (r: Result<seq<int>, SyntaxError>)
      requires LexOk() && 0 <= start <= escStart <= index && index == RunEnd(input, start, true)
      requires HexValue(input[start..index]) == HexValue(input[escStart..index])
      modifies this`index
      ensures Agrees(r, CodepointCloseAt(start, old(index), line, lineStart), index, line, lineStart)
    {
      var b := CharAt(index);
      index := index + 1;
      if b != 125 {
        if b == 34 || b == 39 {
          index := index - 1;
          return Failure(Here(BraceExpected(L.RBrace)));
        }
        return Failure(Here(HexadecimalDigitExpected));
      }
      // `parseInt(digits || "0")`: an empty run, like "0", gives NaN
      var codepoint := ParseHex(input[escStart..index - 1]);
      if codepoint.Int? && codepoint.value > 0x10FFFF {
        return Failure(Here(TooLargeCodepoint));
      }
      return Success(EncodeCodepoint(encoding, codepoint));
    }

    /** A `\u{...}` escape spans `[i, j)`: `u`, `{`, hexadecimal digits, `}`, with a value of at most U+10FFFF. */
    predicate IsUnicodeEscape(i: int, j: int) {
      && 0 <= i && i + 3 < j <= |input| && input[i] == 117 && input[i + 1] == 123 && input[j - 1] == 125
      && (forall k :: i + 2 <= k < j - 1 ==> IsHexDigit(input[k]))
      && HexValue(input[i + 2..j - 1]) <= 0x10FFFF
    }

    /** The end of a `\ddd` escape whose first digit is at `i`: at most three decimal digits. */
    function DecimalEscapeEnd(i: int): (e: int)
      requires 0 <= i <= |input|
      ensures i <= e <= i + 3 && e <= |input|
      ensures forall k :: i <= k < e ==> IsDecDigit(input[k])
      ensures i < |input| && IsDecDigit(input[i]) ==> i < e
    {
      var run := RunEnd(input, i, false);
      if run < i + 3 then run else i + 3
    }

    /**
      The escape whose first unit (after the backslash) is at `i`, as `readEscapeSequence` reads it on line
      `line`, which began at `lineStart`: the named escapes; a line break, which stands for `\n` and starts a new
      line; `\ddd` of up to three digits, raising `decimalEscapeTooLarge` after them above 255; and, as the dialect
      allows, `\z` (which stands for nothing and skips the blanks after it), `\xXX` (raising
      `hexadecimalDigitExpected` at the `x` without two digits) and `\u{...}`; an escaped backslash or quote stands
      for itself, and so does any other unit unless escapes are strict, where it raises `invalidEscape`.
    */
    function EscapeAt(i: int, line: int, lineStart: int): (r: Result<Lexed, SyntaxError>)
      requires 0 <= i <= |input|
      ensures r.Success? ==> i < r.value.index <= |input| + 1 && line <= r.value.line
      ensures r.Success? && r.value.index > |input| ==> i == |input| && r.value.value == []
      ensures r.Success? && r.value.line == line ==> r.value.lineStart == lineStart
      ensures r.Success? && r.value.line > line ==> i < r.value.lineStart <= r.value.index
    {
      var c := CharAt(i);
      if SimpleEscape(c).Some? then Success(Lexed([SimpleEscape(c).value], i + 1, line, lineStart))
      else if IsLineTerminator(c) then
        var j := i + EolLength(input, i);
        Success(Lexed([10], j, line + 1, j))
      else if IsDecDigit(c) then
        var e := DecimalEscapeEnd(i);
        var ddd := ParseDec(input[i..e]);
        if ddd.Int? && ddd.value > 255 then Failure(RaiseHere(DecimalEscapeTooLarge(ddd.value), line, lineStart, e))
        else Success(Lexed(EncodeParsedByte(encoding, ddd, nanChar), e, line, lineStart))
      else if c == 122 && features.skipWhitespaceEscape then
        var b := SkipBlank(i + 1, line, lineStart);
        SkipBlankStops(i + 1, line, lineStart);
        Success(Lexed([], b.0, b.1, b.2))
      else if c == 120 && features.hexEscapes then
        if IsHexDigit(CharAt(i + 1)) && IsHexDigit(CharAt(i + 2)) then
          Success(Lexed(EncodeParsedByte(encoding, ParseHexPair(input[i + 1], input[i + 2]), nanChar), i + 3, line, lineStart))
        else Failure(RaiseHere(HexadecimalDigitExpected, line, lineStart, i))
      else if c == 117 && features.unicodeEscapes then UnicodeEscapeAt(i, line, lineStart)
      else if c == 92 || c == 34 || c == 39 then Success(Lexed([c], i + 1, line, lineStart))
      else if features.strictEscapes then Failure(RaiseHere(InvalidEscape, line, lineStart, i))
      else Success(Lexed(CharString(i), i + 1, line, lineStart))
    }

    /**
      A byte written after a backslash as three decimal digits (`\065` for `A`) reads back as that byte in the
      chosen encoding, and the escape ends after the third digit. Byte 0 (`\000`) is NaN to `parseInt`, and
      reads as the host's units for `String.fromCharCode(NaN)` instead.
    */
    lemma DecimalEscapeRoundTrip(i: int, b: nat, line: int, lineStart: int)
      requires b < 256 && 0 <= i && OccursAt(DecimalSpelling(b), input, i)
      ensures EscapeAt(i, line, lineStart).Success? && EscapeAt(i, line, lineStart).value.index == i + 3
      ensures b > 0 ==> EscapeAt(i, line, lineStart).value.value == EncodeByte(encoding, Some(b))
      ensures b == 0 ==> EscapeAt(i, line, lineStart).value.value == if encoding == NoEncoding then [] else nanChar
    {
      var d := DecimalSpelling(b);
      assert forall k :: i <= k < i + 3 ==> input[k] == d[k - i];
      RunEndAtLeast(input, i, i + 3, false);
      assert input[i..i + 3] == d;
    }

    /** Whether the unit after a backslash starts one of the escapes the dialect knows. */
    predicate IsKnownEscape(c: int) {
      || SimpleEscape(c).Some? || IsLineTerminator(c) || IsDecDigit(c)
      || (c == 122 && features.skipWhitespaceEscape)
      || (c == 120 && features.hexEscapes)
      || (c == 117 && features.unicodeEscapes)
      || c == 92 || c == 34 || c == 39
    }

    /** `\ddd`: up to three digits; a value above 255 raises `decimalEscapeTooLarge` after the digits. */
    method ReadDecimalEscape() returns (r: Result<seq<int>, SyntaxError>)
      requires LexOk() && index < |input| && IsDecDigit(input[index])
      modifies this`index
      ensures LexOk() && index == DecimalEscapeEnd(old(index)) && old(index) < index
      ensures var ddd := ParseDec(input[old(index)..index]);
        && (ddd.Int? && ddd.value > 255 ==> r == Failure(Here(DecimalEscapeTooLarge(ddd.value))))
        && (ddd.Int? && ddd.value <= 255 ==> r == Success(EncodeByte(encoding, Some(ddd.value))))
        && (ddd.NaN? ==> r == Success(EncodeParsedByte(encoding, NaN, nanChar)))
    {
      var sequenceStart := index;
      while IsDecDigit(CharAt(index)) && index - sequenceStart < 3
        invariant sequenceStart <= index <= sequenceStart + 3 && index <= |input|
        invariant forall k :: sequenceStart <= k < index ==> IsDecDigit(input[k])
        decreases |input| - index
      {
        index := index + 1;
      }
      if index < sequenceStart + 3 {
        RunEndIs(input, sequenceStart, index, false);
      } else {
        RunEndAtLeast(input, sequenceStart, index, false);
      }
      var ddd := ParseDec(input[sequenceStart..index]);
      if ddd.Int? && ddd.value > 255 {
        return Failure(Here(DecimalEscapeTooLarge(ddd.value)));
      }
      return Success(EncodeParsedByte(encoding, ddd, nanChar));
    }

    /** `readEscapeSequence`, entered on the unit after the backslash: as `EscapeAt` reads it. */
    method ReadEscapeSequence() returns (r: Result<seq<int>, SyntaxError>)
      requires LexOk()
      modifies this`index, this`line, this`lineStart
      ensures Agrees(r, EscapeAt(old(index), old(line), old(lineStart)), index, line, lineStart)
    {
      var c := CharAt(index);
      if SimpleEscape(c).Some? {
        index := index + 1;
        return Success([SimpleEscape(c).value]);
      }
      if IsLineTerminator(c) {
        var _ := ConsumeEOL();
        return Success([10]);
      }
      if IsDecDigit(c) {
        r := ReadDecimalEscape();
        return;
      }
      if c == 122 && features.skipWhitespaceEscape {
        index := index + 1;
        SkipWhiteSpace();
        return Success([]);
      }
      r := ReadOtherEscape();
    }

    /** `\xXX`: exactly two hexadecimal digits, one byte in the chosen encoding. */
    method ReadHexEscape() returns (r: Result<seq<int>, SyntaxError>)
      requires LexOk() && CharAt(index) == 120
      modifies this`index
      ensures if IsHexDigit(CharAt(old(index) + 1)) && IsHexDigit(CharAt(old(index) + 2)) then
          && index == old(index) + 3
          && r == Success(EncodeParsedByte(encoding, ParseHexPair(input[old(index) + 1], input[old(index) + 2]), nanChar))
        else
          index == old(index) && r == Failure(RaiseHere(HexadecimalDigitExpected, line, lineStart, old(index)))
    {
      if IsHexDigit(CharAt(index + 1)) && IsHexDigit(CharAt(index + 2)) {
        index := index + 3;
        return Success(EncodeParsedByte(encoding, ParseHexPair(input[index - 2], input[index - 1]), nanChar));
      }
      return Failure(Here(HexadecimalDigitExpected));
    }

    /**
      The escapes `readEscapeSequence` tries after the one-letter, line-break, decimal and `\z` escapes: `\x`,
      `\u`, an escaped backslash or quote, and any other character.
    */
    method ReadOtherEscape() returns (r: Result<seq<int>, SyntaxError>)
      requires LexOk()
      requires var c := CharAt(index);
        && SimpleEscape(c).None? && !IsLineTerminator(c) && !IsDecDigit(c) && !(c == 122 && features.skipWhitespaceEscape)
      modifies this`index
      ensures Agrees(r, EscapeAt(old(index), line, lineStart), index, line, lineStart)
    {
      var c := CharAt(index);
      if c == 120 && features.hexEscapes {
        r := ReadHexEscape();
        return;
      }
      if c == 117 && features.unicodeEscapes {
        r := ReadUnicodeEscapeSequence();
        return;
      }
      if c == 92 || c == 34 || c == 39 {
        index := index + 1;
        return Success([c]);
      }
      if features.strictEscapes {
        return Failure(Here(InvalidEscape));
      }
      r := Success(CharString(index));
      index := index + 1;
    }

    /** The number of `=` signs right after the `[` at `i`: the level of a long bracket opening there. */
    function OpenLevel(i: int): (n: nat)
      requires 0 <= i < |input|
      ensures i + 1 + n <= |input|
      ensures forall k :: i + 1 <= k < i + 1 + n ==> input[k] == 61
      ensures CharAt(i + 1 + n) != 61
    {
      EqualsRun(input, i + 1) - (i + 1)
    }

    /** A long bracket of level `OpenLevel(i)` opens at `i`: `[`, the `=` signs, `[`. */
    predicate Opens(i: int)
      requires 0 <= i < |input|
    {
      CharAt(i + 1 + OpenLevel(i)) == 91
    }

    /** Where the content of the long bracket opening at `i` begins: after the opener and one line break, if any. */
    function ContentStart(i: int): (cs: int)
      requires 0 <= i < |input| && Opens(i)
      ensures i + OpenLevel(i) + 2 <= cs <= |input|
    {
      var b := i + OpenLevel(i) + 2;
      b + EolLength(input, b)
    }

    /** A closing long bracket of the given level starts at `p`: `]`, exactly `level` `=` signs, `]`. */
    predicate IsCloser(p: int, level: nat) {
      && CharAt(p) == 93
      && (forall k :: p + 1 <= k < p + 1 + level ==> CharAt(k) == 61)
      && CharAt(p + 1 + level) == 93
    }

    /** The first closer of `level` at or after `q`, if the input has one. */
    function FirstCloser(q: int, level: nat): (p: Option<int>)
      requires 0 <= q <= |input|
      ensures p.Some? ==> q <= p.value && p.value + level + 2 <= |input| && IsCloser(p.value, level)
      ensures p.Some? ==> forall k :: q <= k < p.value ==> !IsCloser(k, level)
      ensures p.None? <==> forall k :: q <= k < |input| ==> !IsCloser(k, level)
      decreases |input| - q
    {
      if q == |input| then None
      else if IsCloser(q, level) then Some(q)
      else FirstCloser(q + 1, level)
    }

    /** A closer with none before it from `q` is the first closer from `q`. */
    lemma {:induction false} FirstCloserIs(q: int, p: int, level: nat)
      requires 0 <= q <= p && IsCloser(p, level)
      requires forall k :: q <= k < p ==> !IsCloser(k, level)
      ensures FirstCloser(q, level) == Some(p)
      decreases p - q
    {
      if q < p {
        FirstCloserIs(q + 1, p, level);
      }
    }

    /**
      `readLongString(isComment)`, entered on the `[`: if no second `[` follows the `=` signs it reads only the
      `[` and answers `None` (`false`); otherwise the content up to the first closer of the same level, with a
      leading line break dropped, and the cursor past the closer. No closer raises `unfinishedLongString` or
      `unfinishedLongComment` carrying the opening line.
    */
    method ReadLongString(isComment: bool) returns (r: Result<Option<seq<int>>, SyntaxError>)
      requires LexOk() && index < |input| && input[index] == 91
      modifies this`index, this`line, this`lineStart
      ensures !Opens(old(index)) ==> r == Success(None) && index == old(index) + 1 && line == old(line) && lineStart == old(lineStart)
      ensures Opens(old(index)) ==> r != Success(None)
      ensures Opens(old(index)) ==>
        (r.Failure? <==> forall q :: ContentStart(old(index)) <= q < |input| ==> !IsCloser(q, OpenLevel(old(index))))
      ensures r.Failure? ==>
        r.error.kind == (if isComment then UnfinishedLongComment(old(line)) else UnfinishedLongString(old(line)))
      ensures r.Success? && r.value.Some? ==>
        var level := OpenLevel(old(index));
        var cs := ContentStart(old(index));
        var p := index - level - 2;
        && Opens(old(index)) && LexOk() && old(line) <= line && cs <= p
        && IsCloser(p, level) && (forall q :: cs <= q < p ==> !IsCloser(q, level))
        && r.value.value == input[cs..p]
    {
      ghost var open := index;
      var firstLine := line;
      index := index + 1;
      var level := 0;
      while CharAt(index + level) == 61
        invariant 0 <= level && index + level <= |input|
        invariant forall k :: index <= k < index + level ==> input[k] == 61
        decreases |input| - index - level
      {
        level := level + 1;
      }
      EqualsRunIs(input, index, index + level);
      if CharAt(index + level) != 91 {
        return Success(None);
      }
      index := index + level + 1;
      if IsLineTerminator(CharAt(index)) {
        var _ := ConsumeEOL();
      }
      assert index == ContentStart(open);
      var content := ReadLongContent(level);
      if content.None? {
        return Failure(Here(if isComment then UnfinishedLongComment(firstLine) else UnfinishedLongString(firstLine)));
      }
      return Success(content);
    }

    /**
      The scanning loop of `readLongString`: from the content start up to the first closer of `level`, leaving
      the cursor past the closer; `None` when the input ends first.
    */
    method ReadLongContent(level: nat) returns (content: Option<seq<int>>)
      requires LexOk()
      modifies this`index, this`line, this`lineStart
      ensures 1 <= line && 0 <= lineStart <= index && old(line) <= line
      ensures content.None? <==> forall q :: old(index) <= q < |input| ==> !IsCloser(q, level)
      ensures content.Some? ==>
        var p := index - level - 2;
        && LexOk() && old(index) <= p
        && IsCloser(p, level) && (forall q :: old(index) <= q < p ==> !IsCloser(q, level))
        && content.value == input[old(index)..p]
    {
      var stringStart := index;
      while index < |input|
        invariant stringStart <= index <= |input| + 1 && 1 <= line && 0 <= lineStart <= index
        invariant old(line) <= line
        invariant forall q :: stringStart <= q < index ==> !IsCloser(q, level)
        decreases |input| + 1 - index
      {
        SkipLineBreaks(stringStart, level);
        var character := CharAt(index);
        index := index + 1;
        var terminator := false;
        if character == 93 {
          terminator := ClosesAt(index, level);
        }
        assert terminator <==> IsCloser(index - 1, level);
        if terminator {
          content := Some(input[stringStart..index - 1]);
          index := index + level + 1;
          return;
        }
      }
      return None;
    }

    /** The inner loop of `readLongString`: consume line breaks, none of which starts a closer. */
    method SkipLineBreaks(ghost from: int, level: nat)
      requires LexOk() && from <= index
      requires forall q :: from <= q < index ==> !IsCloser(q, level)
      modifies this`index, this`line, this`lineStart
      ensures LexOk() && old(index) <= index && old(line) <= line
      ensures !IsLineTerminator(CharAt(index))
      ensures forall q :: from <= q < index ==> !IsCloser(q, level)
    {
      while IsLineTerminator(CharAt(index))
        invariant LexOk() && old(index) <= index && old(line) <= line
        invariant forall q :: from <= q < index ==> !IsCloser(q, level)
        decreases |input| - index
      {
        ghost var before := index;
        var _ := ConsumeEOL();
        assert forall q :: before <= q < index ==> IsLineTerminator(input[q]);
      }
    }

    /** The check after a `]` at `i - 1`: `level` `=` signs from `i`, then `]`. */
    method ClosesAt(i: int, level: nat) returns (terminator: bool)
      requires 1 <= i && CharAt(i - 1) == 93
      ensures terminator <==> IsCloser(i - 1, level)
    {
      terminator := true;
      for k := 0 to level
        invariant terminator <==> forall j :: i <= j < i + k ==> CharAt(j) == 61
      {
        if CharAt(i + k) != 61 {
          terminator := false;
        }
      }
      if CharAt(i + level) != 93 {
        terminator := false;
      }
    }

    /**
      Where the comment whose text starts at `s`, right after its dashes, ends: past the closer of a long
      bracket that opens at `s` (`None` when that bracket is never closed), otherwise at the end of the line.
    */
    function CommentEnd(s: int): (e: Option<int>)
      requires 0 <= s <= |input|
      ensures e.Some? ==> s <= e.value <= |input|
      ensures e.None? ==> CharAt(s) == 91 && Opens(s)
    {
      if CharAt(s) == 91 && Opens(s) then
        var level := OpenLevel(s);
        match FirstCloser(ContentStart(s), level)
        case None => None
        case Some(p) => Some(p + level + 2)
      else Some(LineEnd(input, s))
    }

    /** The text the comment whose text starts at `s` keeps: the contents of its long bracket, or the rest of the line. */
    function CommentText(s: int): (t: seq<int>)
      requires 0 <= s <= |input| && CommentEnd(s).Some?
    {
      if CharAt(s) == 91 && Opens(s) then input[ContentStart(s)..FirstCloser(ContentStart(s), OpenLevel(s)).value]
      else input[s..LineEnd(input, s)]
    }

    /**
      `scanComment`, entered on `--`: a long comment if a long bracket opens right after the dashes, otherwise
      everything up to the end of the line; the cursor moves to `CommentEnd`. With the `comments` option the
      comment is appended to `comments`, with its location and range as the `locations` and `ranges` options ask.
    */
    method ScanComment() returns (r: Outcome<SyntaxError>)
      requires LexOk() && StartsComment(index)
      modifies this`index, this`line, this`lineStart, this`tokenStart, this`comments
      ensures tokenStart == old(index)
      ensures r.Pass? <==> CommentEnd(old(index) + 2).Some?
      ensures r.Pass? ==> index == CommentEnd(old(index) + 2).value && LexOk() && old(line) <= line
      ensures r.Pass? ==>
        comments == old(comments) + if options.comments then [CommentNode(CommentText(old(index) + 2), old(line), old(lineStart))] else []
      ensures !(CharAt(old(index) + 2) == 91 && Opens(old(index) + 2)) ==> line == old(line) && lineStart == old(lineStart)
      ensures r.Fail? ==> r.error.kind == UnfinishedLongComment(old(line)) && comments == old(comments)
    {
      tokenStart := index;
      index := index + 2;
      var lineComment, lineStartComment := line, lineStart;
      var content := ReadCommentText();
      if content.Failure? {
        return Fail(content.error);
      }
      RecordComment(content.value, lineComment, lineStartComment);
      return Pass;
    }

    /**
      The text of a comment after its dashes: the contents of a long bracket that opens there, otherwise the rest
      of the line (kept only with the `comments` option).
    */
    method ReadCommentText() returns (r: Result<seq<int>, SyntaxError>)
      requires LexOk()
      modifies this`index, this`line, this`lineStart
      ensures r.Success? <==> CommentEnd(old(index)).Some?
      ensures r.Success? ==> index == CommentEnd(old(index)).value && LexOk() && old(line) <= line
      ensures r.Success? && options.comments ==> r.value == CommentText(old(index))
      ensures !(CharAt(old(index)) == 91 && Opens(old(index))) ==> line == old(line) && lineStart == old(lineStart)
      ensures r.Failure? ==> r.error.kind == UnfinishedLongComment(old(line))
    {
      var character := CharAt(index);
      var content: seq<int> := [];
      var commentStart := index;
      if character == 91 {
        var long := ReadLongString(true);
        if long.Failure? {
          return Failure(long.error);
        }
        if long.value.Some? {
          FirstCloserIs(ContentStart(commentStart), index - OpenLevel(commentStart) - 2, OpenLevel(commentStart));
          return Success(long.value.value);
        }
        content := [character];
      }
      SkipToLineEnd();
      if options.comments {
        content := input[commentStart..index];
      }
      return Success(content);
    }

    /** The end of `scanComment`: with the `comments` option the comment is appended to `comments`. */
    method RecordComment(text: seq<int>, firstLine: int, firstLineStart: int)
      requires 0 <= tokenStart <= index <= |input|
      modifies this`comments
      ensures comments == old(comments) + if options.comments then [CommentNode(text, firstLine, firstLineStart)] else []
    {
      if options.comments {
        comments := comments + [CommentNode(text, firstLine, firstLineStart)];
      }
    }

    /** The loop of a short comment: the cursor moves to the end of the line. */
    method SkipToLineEnd()
      requires 0 <= index <= |input|
      modifies this`index
      ensures index == LineEnd(input, old(index))
    {
      while index < |input|
        invariant old(index) <= index <= |input|
        invariant forall k :: old(index) <= k < index ==> !IsLineTerminator(input[k])
        decreases |input| - index
      {
        if IsLineTerminator(CharAt(index)) {
          break;
        }
        index := index + 1;
      }
      LineEndIs(input, old(index), index);
    }

    /**
      The comment node for `text` whose dashes started at `tokenStart` on line `firstLine` (which began at
      `firstLineStart`) and which ends at the cursor: the raw source, and a location and a range when the options
      ask for them.
    */
    function CommentNode(text: seq<int>, firstLine: int, firstLineStart: int): (n: Node)
      reads this
      requires 0 <= tokenStart <= index <= |input|
      ensures n.data == Comment(text, input[tokenStart..index])
      ensures n.loc.Some? <==> options.locations
      ensures n.range.Some? <==> options.ranges
    {
      Node(
        Comment(text, input[tokenStart..index]),
        if options.locations then
          Some(Location(Position(firstLine, tokenStart - firstLineStart), Position(line, index - lineStart)))
        else None,
        if options.ranges then Some(Range(tokenStart, index)) else None)
    }

    /**
      `scanLongStringLiteral`, entered on a `[` followed by `[` or `=`: a string token holding the long bracket's
      content, starting on the opening line and ending on the line of the closer. A `[` whose `=` signs are not
      followed by a second `[` raises `expected '['` at the current token. While the first token of a parse is
      lexed there is no current token here, and this model raises at the cursor instead.
    */
    method ScanLongStringLiteral() returns (r: Result<Token, SyntaxError>)
      requires LexOk() && tokenStart == index < |input| && input[index] == 91
      modifies this`index, this`line, this`lineStart
      ensures !Opens(old(index)) ==>
        r == Failure(if token.Some? then RaiseAt(token.value, Expected(L.LBracket))
                     else RaiseHere(Expected(L.LBracket), line, lineStart, old(index) + 1))
      ensures Opens(old(index)) ==>
        var level := OpenLevel(old(index));
        var cs := ContentStart(old(index));
        match FirstCloser(cs, level)
        case None => r.Failure? && r.error.kind == UnfinishedLongString(old(line))
        case Some(p) =>
          && r == Success(Token(StringLiteral, Text(input[cs..p]), old(line), old(lineStart),
                                old(index), index, Some(line), Some(lineStart)))
          && index == p + level + 2
      ensures r.Success? ==> Opens(old(index)) && LexOk() && old(line) <= line
    {
      var beginLine, beginLineStart := line, lineStart;
      var s := ReadLongString(false);
      if s.Failure? {
        return Failure(s.error);
      }
      if s.value.None? {
        return Failure(if token.Some? then RaiseAt(token.value, Expected(L.LBracket)) else Here(Expected(L.LBracket)));
      }
      FirstCloserIs(ContentStart(old(index)), index - OpenLevel(old(index)) - 2, OpenLevel(old(index)));
      return Success(Token(StringLiteral, Text(s.value.value), beginLine, beginLineStart, tokenStart, index, Some(line), Some(lineStart)));
    }

    /**
      At the backslash of an escape in a string, the cursor after it: the text since `stringStart`, then the
      units of the escape as `EscapeAt` reads them, are appended to `stringer`.
    */
    method AppendEscape(stringer: seq<int>, stringStart: int) returns (r: Result<seq<int>, SyntaxError>)
      requires LexOk() && 0 <= stringStart < index
      modifies this`index, this`line, this`lineStart
      ensures var x := EscapeAt(old(index), old(line), old(lineStart));
        && (r.Success? <==> x.Success?)
        && (r.Failure? ==> r.error == x.error)
        && (r.Success? ==>
          && r.value == stringer + input[stringStart..old(index) - 1] + x.value.value
          && index == x.value.index && line == x.value.line && lineStart == x.value.lineStart)
    {
      var prefix := stringer + input[stringStart..index - 1];
      var escapeValue :- ReadEscapeSequence();
      r := Success(prefix + escapeValue);
    }

    /**
      The quoted string `scanStringLiteral` reads from `i` to its closing `delimiter`, with `stringer` read so far
      and plain text pending since `stringStart`: each backslash is replaced by the escape `EscapeAt` reads after
      it; a line break or the end of the input before the delimiter raises `unfinishedString` after that unit.
      The result ends after the delimiter.
    */
    function QuotedString(i: int, delimiter: int, stringer: seq<int>, stringStart: int, line: int, lineStart: int)
      : (r: Result<Lexed, SyntaxError>)
      requires delimiter == 34 || delimiter == 39
      requires 0 <= stringStart <= i <= |input| + 1
      ensures r.Success? ==> i < r.value.index <= |input| && input[r.value.index - 1] == delimiter && line <= r.value.line
      ensures r.Success? && r.value.line == line ==> r.value.lineStart == lineStart
      ensures r.Success? && r.value.line > line ==> i < r.value.lineStart <= r.value.index
      decreases |input| + 2 - i, 1
    {
      var c := CharAt(i);
      if c == delimiter then Success(Lexed(stringer + input[stringStart..i], i + 1, line, lineStart))
      else if i + 1 > |input| || IsLineTerminator(c) then Failure(RaiseHere(UnfinishedString, line, lineStart, i + 1))
      else if c == 92 then QuotedEscape(i, delimiter, stringer, stringStart, line, lineStart)
      else QuotedString(i + 1, delimiter, stringer, stringStart, line, lineStart)
    }

    /** The rest of a quoted string from the backslash at `i`: the escape after it, then the string after that. */
    function QuotedEscape(i: int, delimiter: int, stringer: seq<int>, stringStart: int, line: int, lineStart: int)
      : (r: Result<Lexed, SyntaxError>)
      requires delimiter == 34 || delimiter == 39
      requires 0 <= stringStart <= i < |input| && input[i] == 92
      ensures r.Success? ==> i < r.value.index <= |input| && input[r.value.index - 1] == delimiter && line <= r.value.line
      ensures r.Success? && r.value.line == line ==> r.value.lineStart == lineStart
      ensures r.Success? && r.value.line > line ==> i < r.value.lineStart <= r.value.index
      decreases |input| + 2 - i, 0
    {
      match EscapeAt(i + 1, line, lineStart)
      case Failure(e) => Failure(e)
      case Success(x) => QuotedString(x.index, delimiter, stringer + input[stringStart..i] + x.value, x.index, x.line, x.lineStart)
    }

    /**
      A quoted string without a backslash before its end: if the delimiter closes it, it reads as the text up to
      the delimiter, on the same line; if a line break or the end of the input comes first, it raises
      `unfinishedString` after that point.
    */
    lemma {:induction false} PlainQuotedString(i: int, delimiter: int, stringer: seq<int>, stringStart: int, line: int, lineStart: int)
      requires delimiter == 34 || delimiter == 39
      requires 0 <= stringStart <= i <= |input|
      ensures var stop := StringStop(input, i, delimiter);
        CharAt(stop) == delimiter ==>
          QuotedString(i, delimiter, stringer, stringStart, line, lineStart)
            == Success(Lexed(stringer + input[stringStart..stop], stop + 1, line, lineStart))
      ensures var stop := StringStop(input, i, delimiter);
        CharAt(stop) != delimiter && CharAt(stop) != 92 ==>
          QuotedString(i, delimiter, stringer, stringStart, line, lineStart)
            == Failure(RaiseHere(UnfinishedString, line, lineStart, stop + 1))
      decreases |input| - i
    {
      if i < |input| && input[i] != delimiter && input[i] != 92 && !IsLineTerminator(input[i]) {
        PlainQuotedString(i + 1, delimiter, stringer, stringStart, line, lineStart);
      }
    }

    /**
      `scanStringLiteral`, entered on a quote: a string token holding what `QuotedString` reads up to the matching
      quote, or its error; the token starts on the opening line and records the line it ends on.
    */
    method ScanStringLiteral() returns (r: Result<Token, SyntaxError>)
      requires LexOk() && tokenStart == index < |input| && (input[index] == 34 || input[index] == 39)
      modifies this`index, this`line, this`lineStart
      ensures var x := QuotedString(old(index) + 1, input[old(index)], [], old(index) + 1, old(line), old(lineStart));
        && (r.Success? <==> x.Success?)
        && (r.Failure? ==> r.error == x.error)
        && (r.Success? ==>
          && index == x.value.index && line == x.value.line && lineStart == x.value.lineStart
          && r.value == Token(StringLiteral, Text(x.value.value), old(line), old(lineStart), old(index), index, Some(line), Some(lineStart)))
      ensures r.Success? ==> LexOk() && old(index) + 2 <= index && old(line) <= line
    {
      var delimiter := CharAt(index);
      index := index + 1;
      var beginLine, beginLineStart := line, lineStart;
      var stringer :- ReadQuotedString(delimiter);
      return Success(Token(StringLiteral, Text(stringer), beginLine, beginLineStart, tokenStart, index, Some(line), Some(lineStart)));
    }

    /** The loop of `scanStringLiteral`, from the unit after the opening quote: as `QuotedString` reads it. */
    method ReadQuotedString(delimiter: int) returns (r: Result<seq<int>, SyntaxError>)
      requires LexOk() && 0 < index && (delimiter == 34 || delimiter == 39)
      modifies this`index, this`line, this`lineStart
      ensures Agrees(r, QuotedString(old(index), delimiter, [], old(index), old(line), old(lineStart)), index, line, lineStart)
    {
      var stringStart := index;
      var stringer: seq<int> := [];
      ghost var x := QuotedString(index, delimiter, [], index, line, lineStart);
      while true
        invariant 1 <= line && 0 <= lineStart <= index <= |input| + 1
        invariant 0 <= stringStart <= index
        invariant QuotedString(index, delimiter, stringer, stringStart, line, lineStart) == x
        decreases |input| + 2 - index
      {
        var charCode := CharAt(index);
        index := index + 1;
        if charCode == delimiter {
          assert x == Success(Lexed(stringer + input[stringStart..index - 1], index, line, lineStart));
          break;
        }
        if index > |input| || IsLineTerminator(charCode) {
          return Failure(Here(UnfinishedString));
        }
        if charCode == 92 {
          var step := AppendEscape(stringer, stringStart);
          if step.Failure? {
            return Failure(step.error);
          }
          stringer := step.value;
          stringStart := index;
        }
      }
      // `encodeByte()` without a value adds nothing
      assert stringer + EncodeByte(encoding, None) + input[stringStart..index - 1] == x.value.value;
      stringer := stringer + EncodeByte(encoding, None) + input[stringStart..index - 1];
      return Success(stringer);
    }

    /** The digit loops of the number readers: the cursor moves past the run of digits. */
    method SkipDigits(hex: bool)
      requires 0 <= index <= |input|
      modifies this`index
      ensures index == RunEnd(input, old(index), hex)
    {
      while IsDigit(CharAt(index), hex)
        invariant old(index) <= index <= |input|
        invariant forall k :: old(index) <= k < index ==> IsDigit(input[k], hex)
        decreases |input| - index
      {
        index := index + 1;
      }
      RunEndIs(input, old(index), index, hex);
    }

    /** Where the digits of a numeral starting at `i` end: a digit run, then optionally `.` and another run. */
    function MantissaEnd(i: int, hex: bool): (m: int)
      requires 0 <= i <= |input|
      ensures i <= m <= |input|
    {
      var d := RunEnd(input, i, hex);
      if CharAt(d) == 46 then RunEnd(input, d + 1, hex) else d
    }

    /** The exponent mark: `p`/`P` after hexadecimal digits, `e`/`E` after decimal ones. */
    predicate IsExponentMark(c: int, hex: bool) {
      if hex then c == 112 || c == 80 else c == 101 || c == 69
    }

    /** Where the digits of an exponent whose mark is at `m` begin: after the mark and an optional sign. */
    function ExponentDigits(m: int): (s: int)
      requires 0 <= m < |input|
      ensures m + 1 <= s <= |input|
    {
      if CharAt(m + 1) == 43 || CharAt(m + 1) == 45 then m + 2 else m + 1
    }

    /**
      The extent of an optional exponent at `m`: none without a mark, else the mark, an optional sign and at least
      one decimal digit. `Failure(p)` is a malformed exponent whose digits should start at `p`.
    */
    function ExponentEnd(m: int, hex: bool): (r: Result<int, int>)
      requires 0 <= m <= |input|
      ensures r == Success(m) <==> !IsExponentMark(CharAt(m), hex)
      ensures r.Success? ==> r.value == m || m + 2 <= r.value <= |input|
    {
      if !IsExponentMark(CharAt(m), hex) then Success(m)
      else
        var s := ExponentDigits(m);
        if IsDecDigit(CharAt(s)) then Success(RunEnd(input, s, false)) else Failure(s)
    }

    /** The extent of a numeral whose digits start at `i`: the mantissa, then an optional exponent. */
    function NumeralEnd(i: int, hex: bool): (r: Result<int, int>)
      requires 0 <= i <= |input|
      ensures r.Success? ==> MantissaEnd(i, hex) <= r.value <= |input|
    {
      ExponentEnd(MantissaEnd(i, hex), hex)
    }

    /** The optional exponent of `readHexLiteral` and `readDecLiteral`. */
    method ReadExponent(hex: bool) returns (r: Outcome<SyntaxError>)
      requires 0 <= index <= |input|
      modifies this`index
      ensures match ExponentEnd(old(index), hex)
        case Success(e) => r.Pass? && index == e
        case Failure(s) => r == Fail(RaiseHere(MalformedNumber, line, lineStart, s)) && index == s
    {
      if IsExponentMark(CharAt(index), hex) {
        index := index + 1;
        if CharAt(index) == 43 || CharAt(index) == 45 {
          index := index + 1;
        }
        if !IsDecDigit(CharAt(index)) {
          return Fail(Here(MalformedNumber));
        }
        SkipDigits(false);
      }
      return Pass;
    }

    /**
      The digits of a numeral, then a `.` and more digits if a point follows; `fraction` says whether digits
      followed the point.
    */
    method ReadMantissa(hex: bool) returns (fraction: bool)
      requires 0 <= index <= |input|
      modifies this`index
      ensures index == MantissaEnd(old(index), hex)
      ensures fraction <==> index > RunEnd(input, old(index), hex) + 1
    {
      SkipDigits(hex);
      fraction := false;
      if CharAt(index) == 46 {
        index := index + 1;
        var fractionStart := index;
        SkipDigits(hex);
        fraction := fractionStart != index;
      }
    }

    /**
      The runs of a hexadecimal numeral from `d`: the integer digits end at `run`; fraction digits, if any, follow
      the point up to the mantissa end `m`; exponent digits, if any, run from after the mark and sign to `e`.
    */
    predicate HexRuns(d: int, run: int, m: int, e: int)
    {
      && 0 <= d <= run <= m <= e <= |input|
      && (forall k :: d <= k < run ==> IsHexDigit(input[k]))
      && (run + 1 < m ==> forall k :: run + 1 <= k < m ==> IsHexDigit(input[k]))
      && (m < e ==> m < |input| && ExponentDigits(m) <= e && forall k :: ExponentDigits(m) <= k < e ==> IsDecDigit(input[k]))
    }

    /** A numeral `NumeralEnd` accepts from `d` has the runs `HexRuns` describes. */
    lemma HexLiteralParts(d: int)
      requires 0 <= d <= |input| && NumeralEnd(d, true).Success?
      ensures HexRuns(d, RunEnd(input, d, true), MantissaEnd(d, true), NumeralEnd(d, true).value)
    {
      var run, m := RunEnd(input, d, true), MantissaEnd(d, true);
      if CharAt(run) == 46 {
        assert m == RunEnd(input, run + 1, true);
      }
      if IsExponentMark(CharAt(m), true) {
        var s := ExponentDigits(m);
        assert NumeralEnd(d, true).value == RunEnd(input, s, false);
      }
    }

    /**
      The value `readHexLiteral` computes, `(digit + fraction) * 2^exponent`, from the runs of a numeral. It is
      NaN when `parseInt` reads the integer digits, the fraction digits or the exponent digits as NaN (a run worth
      0), since NaN carries through the sum, the quotient and `math.pow`. Otherwise a plain digit run keeps its
      value, and a value with fraction digits or an exponent, which the host computes in floating point, is not
      kept.
    */
    function HexRunsValue(d: int, run: int, m: int, e: int): (v: Option<ParsedInt>)
      requires HexRuns(d, run, m, e)
    {
      var digit := ParseHex(input[d..run]);
      var fractionNaN := run + 1 < m && ParseHex(input[run + 1..m]).NaN?;
      var exponentNaN := m < e && ParseDec(input[ExponentDigits(m)..e]).NaN?;
      if digit.NaN? || fractionNaN || exponentNaN then Some(NaN)
      else if e <= run + 1 then Some(digit)
      else None
    }

    /** The value of the hexadecimal numeral whose digits start at `d`. */
    function HexLiteralValue(d: int): (v: Option<ParsedInt>)
      requires 0 <= d < |input| && IsHexDigit(input[d]) && NumeralEnd(d, true).Success?
    {
      HexLiteralParts(d);
      HexRunsValue(d, RunEnd(input, d, true), MantissaEnd(d, true), NumeralEnd(d, true).value)
    }

    /** `HexLiteralNaN` for the runs of a numeral given by their boundaries. */
    lemma HexRunsNaN(d: int, run: int, m: int, e: int)
      requires HexRuns(d, run, m, e)
      ensures var v := HexRunsValue(d, run, m, e);
        && (v == Some(NaN) <==> ZeroRun(d, run) || (run + 1 < m && ZeroRun(run + 1, m)) || (m < e && ZeroRun(ExponentDigits(m), e)))
        && (v.Some? && v.value.Int? ==> e <= run + 1 && v.value.value == HexValue(input[d..run]) > 0)
        && (v.None? ==> run + 1 < e)
    {
      ZeroRunIsNaN(d, run, true);
      if run + 1 < m {
        ZeroRunIsNaN(run + 1, m, true);
      }
      if m < e {
        ZeroRunIsNaN(ExponentDigits(m), e, false);
      }
    }

    /**
      A hexadecimal literal is NaN exactly when one of its digit runs (integer, fraction or exponent) is all
      zeros; otherwise a plain digit run keeps its non-zero value, and only a literal with fraction digits or an
      exponent keeps nothing.
    */
    lemma HexLiteralNaN(d: int)
      requires 0 <= d < |input| && IsHexDigit(input[d]) && NumeralEnd(d, true).Success?
      ensures var run, m, e := RunEnd(input, d, true), MantissaEnd(d, true), NumeralEnd(d, true).value;
        var v := HexLiteralValue(d);
        && (v == Some(NaN) <==> ZeroRun(d, run) || (run + 1 < m && ZeroRun(run + 1, m)) || (m < e && ZeroRun(ExponentDigits(m), e)))
        && (v.Some? && v.value.Int? ==> e <= run + 1 && v.value.value == HexValue(input[d..run]) > 0)
        && (v.None? ==> run + 1 < e)
    {
      HexLiteralParts(d);
      HexRunsNaN(d, RunEnd(input, d, true), MantissaEnd(d, true), NumeralEnd(d, true).value);
    }

    /**
      `readHexLiteral`, entered on the `0` of `0x`: at least one hexadecimal digit, an optional fraction and an
      optional binary exponent, with the value `HexLiteralValue` gives.
    */
    method ReadHexLiteral() returns (r: Result<Option<ParsedInt>, SyntaxError>)
      requires LexOk() && index + 2 <= |input|
      modifies this`index
      ensures var d := old(index) + 2;
        !IsHexDigit(CharAt(d)) ==> r == Failure(RaiseHere(MalformedNumber, line, lineStart, d))
      ensures var d := old(index) + 2;
        IsHexDigit(CharAt(d)) ==>
          match NumeralEnd(d, true)
          case Success(e) =>
            && r.Success? && index == e && r.value == HexLiteralValue(d)
          case Failure(s) => r == Failure(RaiseHere(MalformedNumber, line, lineStart, s))
      ensures r.Success? ==> LexOk() && old(index) + 3 <= index
    {
      index := index + 2;
      if !IsHexDigit(CharAt(index)) {
        return Failure(Here(MalformedNumber));
      }
      var digitStart := index;
      var _ := ReadMantissa(true);
      var e := ReadExponent(true);
      if e.Fail? {
        return Failure(e.error);
      }
      return Success(HexLiteralValue(digitStart));
    }

    /**
      `readDecLiteral`, entered on the first digit or on a `.` before a digit: digits, an optional fraction and an
      optional exponent. The value comes from the host's `tonumber` and is not kept.
    */
    method ReadDecLiteral() returns (r: Outcome<SyntaxError>)
      requires LexOk()
      modifies this`index
      ensures match NumeralEnd(old(index), false)
        case Success(e) => r.Pass? && index == e
        case Failure(s) => r == Fail(RaiseHere(MalformedNumber, line, lineStart, s))
      ensures r.Pass? ==> LexOk() && old(index) <= index
    {
      var _ := ReadMantissa(false);
      r := ReadExponent(false);
    }

    /**
      `scanNumericLiteral`, entered on a digit or on a `.` before a digit: `0x` or `0X` starts a hexadecimal
      numeral, anything else a decimal one.
    */
    method ScanNumericLiteral() returns (r: Result<Token, SyntaxError>)
      requires LexOk() && tokenStart == index < |input|
      requires IsDecDigit(input[index]) || (input[index] == 46 && IsDecDigit(CharAt(index + 1)))
      modifies this`index
      ensures var hex := input[old(index)] == 48 && (CharAt(old(index) + 1) == 120 || CharAt(old(index) + 1) == 88);
        var start := if hex then old(index) + 2 else old(index);
        && (hex && !IsHexDigit(CharAt(start)) ==> r == Failure(RaiseHere(MalformedNumber, line, lineStart, start)))
        && (!hex || IsHexDigit(CharAt(start)) ==>
              match NumeralEnd(start, hex)
              case Success(e) => r.Success? && index == e
              case Failure(s) => r == Failure(RaiseHere(MalformedNumber, line, lineStart, s)))
        && (hex && r.Success? ==> r.value.value == Number(HexLiteralValue(start)))
        && (!hex && r.Success? ==> r.value.value == Number(None))
      ensures r.Success? ==>
        && LexOk() && old(index) < index
        && r.value.kind.NumericLiteral? && r.value.value.Number?
        && r.value == TokenHere(NumericLiteral, r.value.value)
    {
      var value: Option<ParsedInt> := None;
      if CharAt(index) == 48 && (CharAt(index + 1) == 120 || CharAt(index + 1) == 88) {
        value :- ReadHexLiteral();
      } else {
        var d := ReadDecLiteral();
        if d.Fail? {
          return Failure(d.error);
        }
        assert MantissaEnd(old(index), false) > old(index);
      }
      return Success(TokenHere(NumericLiteral, Number(value)));
    }

    /**
      The punctuator the longest-match rule picks at `i`: the two units there if they spell a punctuator of the
      dialect, else the one unit if it does; `None` when no punctuator starts at `i`.
    */
    function LongestPunctuator(i: int): (p: Option<seq<int>>)
      requires 0 <= i < |input|
      ensures p.Some? ==> IsPunctuator(p.value, features) && OccursAt(p.value, input, i)
      ensures p.Some? ==> forall q :: IsPunctuator(q, features) && OccursAt(q, input, i) ==> |q| <= |p.value|
      ensures p.None? ==> forall q :: IsPunctuator(q, features) ==> !OccursAt(q, input, i)
    {
      PunctuatorLength(features);
      if i + 2 <= |input| && IsPunctuator(input[i..i + 2], features) then Some(input[i..i + 2])
      else if IsPunctuator([input[i]], features) then
        assert input[i..i + 1] == [input[i]];
        Some([input[i]])
      else
        None
    }

    /**
      The punctuator part of the dispatch in `lex`, entered on a unit that starts no name, string, number, long
      string or comment: `...` is a vararg literal; otherwise the feature-gated cases pick a punctuator, and a
      unit they do not know raises `unexpected symbol`.
    */
    method ScanOperator() returns (r: Result<Token, SyntaxError>)
      requires LexOk() && tokenStart == index < |input|
      requires !IsIdentifierStart(input[index], features) && !IsDecDigit(input[index])
      requires input[index] != 34 && input[index] != 39
      requires !(input[index] == 46 && IsDecDigit(CharAt(index + 1)))
      requires !(input[index] == 91 && (CharAt(index + 1) == 91 || CharAt(index + 1) == 61))
      modifies this`index
      ensures OccursAt(L.Ellipsis, input, old(index)) ==> r == Success(TokenHere(VarargLiteral, Text(L.Ellipsis)))
      ensures !OccursAt(L.Ellipsis, input, old(index)) ==>
        match LongestPunctuator(old(index))
        case Some(p) => r == Success(TokenHere(Punctuator, Text(p))) && index == old(index) + |p|
        case None => r == Failure(Here(UnexpectedSymbol([input[old(index)]])))
      ensures r.Success? ==> LexOk() && old(index) < index
    {
      var p := PickPunctuator();
      if p == L.Ellipsis {
        var t := ScanVarargLiteral();
        return Success(t);
      }
      if p == [] {
        return Failure(Here(UnexpectedSymbol(CharString(index))));
      }
      var t := ScanPunctuator(p);
      return Success(t);
    }

    /**
      The feature-gated cases of the dispatch in `lex` for punctuators: the punctuator to scan, `...` for a
      vararg literal, or nothing for a unit no case knows.
    */
    method PickPunctuator() returns (p: seq<int>)
      requires 0 <= index < |input|
      ensures OccursAt(L.Ellipsis, input, index) ==> p == L.Ellipsis
      ensures !OccursAt(L.Ellipsis, input, index) ==>
        LongestPunctuator(index) == if p == [] then None else Some(p)
    {
      var charCode := CharAt(index);
      var next := CharAt(index + 1);
      assert index + 2 <= |input| ==> input[index..index + 2] == [charCode, next] by {
        if index + 2 <= |input| {
          assert input[index..index + 2][0] == charCode && input[index..index + 2][1] == next;
        }
      }
      assert input[index..index + 1] == [charCode] by { assert input[index..index + 1][0] == charCode; }
      PunctuatorUnits(charCode, next, features);
      p := [];
      if charCode == 46 {
        if next == 46 {
          if CharAt(index + 2) == 46 {
            assert input[index..index + 3] == L.Ellipsis;
            return L.Ellipsis;
          }
          p := L.DotDot;
        } else {
          p := L.Dot;
        }
      } else if charCode == 61 {
        p := if next == 61 then L.Eq else L.Assign;
      } else if charCode == 62 {
        if features.bitwiseOperators && next == 62 {
          p := L.Shr;
        } else if next == 61 {
          p := L.Ge;
        } else {
          p := L.Gt;
        }
      } else if charCode == 60 {
        if features.bitwiseOperators && next == 60 {
          p := L.Shl;
        } else if next == 61 {
          p := L.Le;
        } else {
          p := L.Lt;
        }
      } else if charCode == 126 {
        if next == 61 {
          p := L.Ne;
        } else if features.bitwiseOperators {
          p := L.Tilde;
        }
      } else if charCode == 58 {
        if features.labels && next == 58 {
          p := L.DoubleColon;
        } else {
          p := L.Colon;
        }
      } else if charCode == 91 {
        p := L.LBracket;
      } else if charCode == 47 {
        if features.integerDivision && next == 47 {
          p := L.DoubleSlash;
        } else {
          p := L.Slash;
        }
      } else if charCode == 38 || charCode == 124 {
        if features.bitwiseOperators {
          p := [charCode];
        }
      } else if charCode in {42, 94, 37, 44, 123, 125, 93, 40, 41, 59, 35, 45, 43} {
        p := [charCode];
      }
    }

    /** The end-of-input token at the cursor. */
    function EofToken(): (t: Token)
      reads this`line, this`lineStart, this`index
    {
      Token(EOF, Text(L.EofText), line, lineStart, index, index, None, None)
    }

    /** The scanner the dispatch in `lex` picks for a token whose first unit is at `i`. */
    function ScannerAt(i: int): (s: Scanner)
      requires 0 <= i < |input|
      ensures s.WordScanner? <==> IsIdentifierStart(input[i], features)
      ensures s.QuotedScanner? ==> input[i] == 34 || input[i] == 39
      ensures s.NumeralScanner? ==> IsDecDigit(input[i]) || input[i] == 46
      ensures s.LongStringScanner? ==> input[i] == 91
    {
      var c := input[i];
      var next := CharAt(i + 1);
      if IsIdentifierStart(c, features) then WordScanner
      else if c == 39 || c == 34 then QuotedScanner
      else if IsDecDigit(c) || (c == 46 && IsDecDigit(next)) then NumeralScanner
      else if c == 91 && (next == 91 || next == 61) then LongStringScanner
      else OperatorScanner
    }

    /**
      `lex`: skip blanks and comments, then read one token. The token starts where the blanks and comments end
      (`BlanksEnd`): there, the end of the input gives the `<eof>` token, and any other unit the kind of token its
      scanner produces; the cursor moves past the token, which is well formed for the dialect. A long comment
      left open raises its error.
    */
    method Lex() returns (r: Result<Token, SyntaxError>)
      requires LexOk()
      modifies this`index, this`line, this`lineStart, this`tokenStart, this`comments
      ensures BlanksEnd(old(index)).None? ==> r.Failure? && r.error.kind.UnfinishedLongComment?
      ensures BlanksEnd(old(index)) == Some(|input|) ==> r == Success(EofToken()) && index == |input|
      ensures r.Success? ==> BlanksEnd(old(index)).Some?
      ensures r.Success? ==> LexOk() && old(index) <= index && old(line) <= line && WellFormed(r.value, features)
      ensures r.Success? ==> r.value.end == index && old(index) <= r.value.start <= index
      ensures r.Success? && r.value.kind.EOF? ==> BlanksEnd(old(index)) == Some(|input|)
      ensures r.Success? && !r.value.kind.EOF? ==>
        && r.value.start == BlanksEnd(old(index)).value < index
        && ScannedKind(ScannerAt(r.value.start), r.value.kind)
      ensures old(index) == |input| ==>
        && r == Success(EofToken()) && index == old(index) && line == old(line) && lineStart == old(lineStart)
        && comments == old(comments)
    {
      var step := SkipBlanksAndComments();
      if step.Fail? {
        return Failure(step.error);
      }
      if index >= |input| {
        return Success(EofToken());
      }
      r := ReadToken();
    }

    /** `--` starts a comment at `i`. */
    predicate StartsComment(i: int) {
      0 <= i && i + 1 < |input| && input[i] == 45 && input[i + 1] == 45
    }

    /**
      Where the blanks and comments from `i` end: past the blanks, and while `--` follows, past the comment and
      the blanks after it; `None` when a long comment is left open.
    */
    function BlanksEnd(i: int): (e: Option<int>)
      requires 0 <= i <= |input|
      ensures e.Some? ==> i <= e.value <= |input| && !StartsComment(e.value)
      ensures e.Some? && e.value < |input| ==> !IsWhiteSpace(input[e.value]) && !IsLineTerminator(input[e.value])
    {
      CommentsEnd(BlankRunEnd(i))
    }

    /** `BlanksEnd` from a unit that is not blank: while `--` follows, the comment and the blanks after it. */
    function CommentsEnd(k: int): (e: Option<int>)
      requires 0 <= k <= |input| && (k < |input| ==> !IsWhiteSpace(input[k]) && !IsLineTerminator(input[k]))
      ensures e.Some? ==> k <= e.value <= |input| && !StartsComment(e.value)
      ensures e.Some? && e.value < |input| ==> !IsWhiteSpace(input[e.value]) && !IsLineTerminator(input[e.value])
      decreases |input| - k
    {
      if StartsComment(k) then
        match CommentEnd(k + 2)
        case None => None
        case Some(c) => CommentsEnd(BlankRunEnd(c))
      else Some(k)
    }

    /**
      The blanks and comments before a token, in any number and order, up to `BlanksEnd`; a long comment left
      open raises its error. At the end of the input nothing changes.
    */
    method SkipBlanksAndComments() returns (o: Outcome<SyntaxError>)
      requires LexOk()
      modifies this`index, this`line, this`lineStart, this`tokenStart, this`comments
      ensures o.Pass? <==> BlanksEnd(old(index)).Some?
      ensures o.Pass? ==> index == BlanksEnd(old(index)).value && LexOk() && old(line) <= line
      ensures o.Fail? ==> o.error.kind.UnfinishedLongComment?
      ensures old(index) == |input| ==>
        o.Pass? && index == old(index) && line == old(line) && lineStart == old(lineStart) && comments == old(comments)
    {
      SkipBlankStops(index, line, lineStart);
      SkipWhiteSpace();
      while StartsComment(index)
        invariant LexOk() && old(index) <= index && old(line) <= line
        invariant index < |input| ==> !IsWhiteSpace(input[index]) && !IsLineTerminator(input[index])
        invariant CommentsEnd(index) == BlanksEnd(old(index))
        invariant old(index) == |input| ==> index == old(index) && line == old(line) && lineStart == old(lineStart)
        invariant old(index) == |input| ==> comments == old(comments)
        decreases |input| - index
      {
        o := SkipComment();
        if o.Fail? {
          return;
        }
      }
      return Pass;
    }

    /** One round of the loop in `lex`: a comment, then the blanks after it. */
    method SkipComment() returns (o: Outcome<SyntaxError>)
      requires LexOk() && StartsComment(index)
      requires !IsWhiteSpace(input[index]) && !IsLineTerminator(input[index])
      modifies this`index, this`line, this`lineStart, this`tokenStart, this`comments
      ensures o.Fail? ==> CommentsEnd(old(index)).None? && o.error.kind.UnfinishedLongComment?
      ensures o.Pass? ==> LexOk() && old(index) < index && old(line) <= line
      ensures o.Pass? && index < |input| ==> !IsWhiteSpace(input[index]) && !IsLineTerminator(input[index])
      ensures o.Pass? ==> CommentsEnd(index) == CommentsEnd(old(index))
    {
      o := ScanComment();
      if o.Fail? {
        return;
      }
      SkipBlankStops(index, line, lineStart);
      SkipWhiteSpace();
    }

    /**
      What a numeral, long-string or operator token read at `i` can be: a numeral fails only as a malformed
      number; a long string needs a long bracket that opens and closes, and otherwise raises `expected '['` or
      an unfinished long string; an operator is `...`, else the longest punctuator, else an unexpected symbol.
    */
    predicate NumberOrOperator(i: int, r: Result<Token, SyntaxError>)
      requires 0 <= i < |input|
    {
      match ScannerAt(i)
      case NumeralScanner => r.Failure? ==> r.error.kind == MalformedNumber
      case LongStringScanner =>
        && (r.Success? <==> Opens(i) && FirstCloser(ContentStart(i), OpenLevel(i)).Some?)
        && (r.Failure? ==> r.error.kind == Expected(L.LBracket) || r.error.kind.UnfinishedLongString?)
      case OperatorScanner =>
        if OccursAt(L.Ellipsis, input, i) then r.Success? && r.value.kind == VarargLiteral
        else (match LongestPunctuator(i)
          case Some(p) => r.Success? && r.value.kind == Punctuator && r.value.value == Text(p)
          case None => r.Failure? && r.error.kind == UnexpectedSymbol([input[i]]))
      case _ => true
    }

    /**
      One token at the cursor, which is past the blanks and before the end of the input: by its first
      character, a name or keyword, or a string, or else a number, a long string or an operator.
    */
    method ReadToken() returns (r: Result<Token, SyntaxError>)
      requires LexOk() && index < |input|
      modifies this`index, this`line, this`lineStart, this`tokenStart
      ensures r.Success? ==> LexOk() && old(index) <= index && old(line) <= line && WellFormed(r.value, features)
      ensures r.Success? ==> r.value.end == index && r.value.start == old(index) < index
      ensures r.Success? ==> ScannedKind(ScannerAt(old(index)), r.value.kind)
      ensures ScannerAt(old(index)).WordScanner? ==>
        && r.Success? && (r.value.kind, r.value.value) == ClassifyWord(input[old(index)..index], features)
        && (forall i :: old(index) <= i < index ==> IsIdentifierPart(input[i], features))
        && !IsIdentifierPart(CharAt(index), features)
      ensures ScannerAt(old(index)).QuotedScanner? ==>
        var x := QuotedString(old(index) + 1, input[old(index)], [], old(index) + 1, old(line), old(lineStart));
        && (r.Success? <==> x.Success?)
        && (r.Success? ==> r.value.value == Text(x.value.value) && index == x.value.index)
        && (r.Failure? ==> r.error == x.error)
      ensures !ScannerAt(old(index)).WordScanner? && !ScannerAt(old(index)).QuotedScanner? ==> NumberOrOperator(old(index), r)
    {
      var charCode := CharAt(index);
      tokenStart := index;
      ClassesDisjoint(charCode, features);
      if IsIdentifierStart(charCode, features) {
        var t := ScanIdentifierOrKeyword();
        return Success(t);
      }
      if charCode == 39 || charCode == 34 {
        r := ScanStringLiteral();
        return;
      }
      r := ReadNumberOrOperator();
    }

    /**
      A token that is neither a name nor a quoted string: a number at a digit or at `.` before a digit, a
      long string at `[[` or `[=`, and an operator otherwise.
    */
    method ReadNumberOrOperator() returns (r: Result<Token, SyntaxError>)
      requires LexOk() && tokenStart == index < |input|
      requires !IsIdentifierStart(input[index], features) && input[index] != 34 && input[index] != 39
      modifies this`index, this`line, this`lineStart
      ensures r.Success? ==> LexOk() && old(index) <= index && old(line) <= line && WellFormed(r.value, features)
      ensures r.Success? ==> r.value.end == index && r.value.start == old(index) < index
      ensures r.Success? ==> ScannedKind(ScannerAt(old(index)), r.value.kind)
      ensures NumberOrOperator(old(index), r)
    {
      var charCode := CharAt(index);
      var next := CharAt(index + 1);
      if IsDecDigit(charCode) || (charCode == 46 && IsDecDigit(next)) {
        r := ScanNumericLiteral();
      } else if charCode == 91 && (next == 91 || next == 61) {
        r := ScanLongStringLiteral();
      } else {
        r := ScanOperator();
      }
    }

    // ---------------------------------------------------------------------------------------------------
    // The token window

    /** A token's range lies inside the input. */
    predicate InInput(t: Token) {
      0 <= t.start <= t.end <= |input|
    }

    /**
      The token window `nextLex` keeps: a lookahead is always there, an `<eof>` lookahead means the input is
      used up, and once the current token is `<eof>` so is the lookahead.
    */
    predicate Window()
      reads this`line, this`lineStart, this`index, this`token, this`lookahead
    {
      && LexOk()
      && lookahead.Some? && Parsable(lookahead.value, features) && InInput(lookahead.value)
      && (lookahead.value.kind.EOF? ==> index == |input| && lookahead.value == EofToken())
      && (token.Some? ==>
        Parsable(token.value, features) && InInput(token.value)
        && (token.value.kind.EOF? ==> lookahead.value.kind.EOF?))
    }

    /** The scope stack is never empty and `scopeDepth` indexes its top. */
    predicate ScopesOk()
      reads this`scopes, this`scopeDepth
    {
      |scopes| >= 1 && scopeDepth == |scopes| - 1
    }

    /** No two listed globals share a name. */
    predicate GlobalsOk()
      reads this`globals
    {
      DistinctGlobals(globals)
    }

    /** Without location tracking no marker is ever pushed. */
    predicate MarksOk()
      reads this`locations
    {
      trackLocations || locations == []
    }

    /** The state every parse function starts and (when it succeeds) ends in. */
    ghost predicate Valid()
      reads this`line, this`lineStart, this`index, this`token, this`lookahead
      reads this`scopes, this`scopeDepth, this`globals, this`locations
    {
      var ok := Window() && token.Some? && ScopesOk() && GlobalsOk() && MarksOk(); ok
    }

    /**
      What is left to read: the unread input plus one for each of the current and lookahead tokens that is
      not `<eof>`. Every `nextLex` on a token other than `<eof>` makes it smaller.
    */
    function Measure(): nat
      reads this`index, this`token, this`lookahead
    {
      (if index <= |input| then |input| - index else 0)
      + (if token.Some? && !token.value.kind.EOF? then 1 else 0)
      + (if lookahead.Some? && !lookahead.value.kind.EOF? then 1 else 0)
    }

    /** The token window moved by one: the current token became the previous one and the lookahead the current. */
    twostate predicate Shifted()
      reads this
    {
      && previousToken == old(token) && token == old(lookahead) && Window() && token.Some?
      && Measure() <= old(Measure())
      && (old(token).Some? && !old(token).value.kind.EOF? ==> Measure() < old(Measure()))
    }

    /**
      `nextLex`: the window moves by one and a new lookahead is lexed. At the end of the input the lexer keeps
      answering `<eof>` and nothing else changes.
    */
    method NextLex() returns (o: Outcome<SyntaxError>)
      requires Window()
      modifies this`previousToken, this`token, this`lookahead, this`index, this`line, this`lineStart
      modifies this`tokenStart, this`comments
      ensures o.Pass? ==> Shifted() && old(line) <= line
      ensures o.Pass? && old(Valid()) ==> Valid()
      ensures old(lookahead).value.kind.EOF? ==>
        o.Pass? && index == old(index) && line == old(line) && lineStart == old(lineStart)
        && lookahead == old(lookahead) && comments == old(comments)
    {
      previousToken := token;
      token := lookahead;
      o := LexLookahead();
    }

    /** The second half of `nextLex`: the token lexed at the cursor becomes the lookahead. */
    method LexLookahead() returns (o: Outcome<SyntaxError>)
      requires LexOk()
      modifies this`lookahead, this`index, this`line, this`lineStart, this`tokenStart, this`comments
      ensures o.Pass? ==> LexOk() && old(index) <= index && old(line) <= line
      ensures o.Pass? ==> lookahead.Some? && Parsable(lookahead.value, features) && InInput(lookahead.value)
      ensures o.Pass? && lookahead.value.kind.EOF? ==> index == |input| && lookahead.value == EofToken()
      ensures o.Pass? && !lookahead.value.kind.EOF? ==> old(index) < index
      ensures old(index) == |input| ==>
        && o.Pass? && lookahead == Some(EofToken()) && index == old(index) && line == old(line)
        && lineStart == old(lineStart) && comments == old(comments)
    {
      var t := Lex();
      if t.Failure? {
        return Fail(t.error);
      }
      WellFormedParsable(t.value, features);
      lookahead := Some(t.value);
      return Pass;
    }

    /** `consume(value)`: a token whose value is `value` (whatever its type) is taken; any other is left alone. */
    method Consume(value: seq<int>) returns (r: Result<bool, SyntaxError>)
      requires Window() && token.Some?
      modifies this`previousToken, this`token, this`lookahead, this`index, this`line, this`lineStart
      modifies this`tokenStart, this`comments
      ensures !ValueIs(old(token).value, value) ==> r == Success(false) && unchanged(this)
      ensures ValueIs(old(token).value, value) && r.Success? ==> r.value && Shifted()
      ensures r.Success? && old(Valid()) ==> Valid()
    {
      if ValueIs(token.value, value) {
        var o := NextLex();
        if o.Fail? {
          return Failure(o.error);
        }
        return Success(true);
      }
      return Success(false);
    }

    /** `expect(value)`: like `consume`, but any other token raises `expected` at that token. */
    method Expect(value: seq<int>) returns (o: Outcome<SyntaxError>)
      requires Window() && token.Some?
      modifies this`previousToken, this`token, this`lookahead, this`index, this`line, this`lineStart
      modifies this`tokenStart, this`comments
      ensures !ValueIs(old(token).value, value) ==> o == Fail(RaiseAt(old(token).value, Expected(value)))
      ensures o.Pass? ==> ValueIs(old(token).value, value) && Shifted()
      ensures o.Pass? && old(Valid()) ==> Valid()
    {
      if ValueIs(token.value, value) {
        o := NextLex();
      } else {
        o := Fail(RaiseAt(token.value, Expected(value)));
      }
    }

    // ---------------------------------------------------------------------------------------------------
    // The scope tracker

    /** `createScope`: a copy of the current scope is pushed, so the new scope starts with every name of its parent. */
    method CreateScope()
      requires |scopes| >= 1 && scopeDepth == |scopes| - 1
      modifies this`scopes, this`scopeDepth
      ensures old(Valid()) ==> Valid()
      ensures scopes == old(scopes) + [old(scopes)[old(scopeDepth)]]
      ensures scopeDepth == old(scopeDepth) + 1 == |scopes| - 1
    {
      var scope := scopes[scopeDepth];
      scopeDepth := scopeDepth + 1;
      scopes := scopes + [scope];
    }

    /** `destroyScope`: the current scope is dropped and its parent becomes current again. */
    method DestroyScope()
      requires |scopes| >= 2 && scopeDepth == |scopes| - 1
      modifies this`scopes, this`scopeDepth
      ensures old(Valid()) ==> Valid()
      ensures scopes == old(scopes)[..|old(scopes)| - 1]
      ensures scopeDepth == old(scopeDepth) - 1 == |scopes| - 1
    {
      scopes := scopes[..|scopes| - 1];
      scopeDepth := scopeDepth - 1;
    }

    /** `scopeIdentifierName`: the name joins the current scope unless it is already there. */
    method ScopeIdentifierName(name: seq<int>)
      requires |scopes| >= 1 && scopeDepth == |scopes| - 1
      modifies this`scopes
      ensures scopes == old(scopes)[scopeDepth := AddName(old(scopes)[scopeDepth], name)]
      ensures name in scopes[scopeDepth]
    {
      if name in scopes[scopeDepth] {
        return;
      }
      scopes := scopes[scopeDepth := scopes[scopeDepth] + [name]];
    }

    /** `scopeHasName`: the name is declared in the current scope. */
    function ScopeHasName(name: seq<int>): (b: bool)
      requires |scopes| >= 1 && scopeDepth == |scopes| - 1
      reads this`scopes, this`scopeDepth
      ensures b <==> name in scopes[|scopes| - 1]
    {
      name in scopes[scopeDepth]
    }

    /**
      `attachScope`: the identifier is marked local or global; a global whose name is not yet listed is added
      to `globals` (the node the source pushes is the one it then marks, so the listed node carries the mark).
    */
    method AttachScope(node: Node, isLocal: bool) returns (r: Node)
      requires node.data.Identifier? && DistinctGlobals(globals)
      modifies this`globals
      ensures r == MarkLocal(node, isLocal)
      ensures globals == AddGlobal(old(globals), r, isLocal)
      ensures DistinctGlobals(globals)
    {
      r := MarkLocal(node, isLocal);
      AddGlobalKeepsDistinct(globals, r, isLocal);
      if !isLocal {
        var i := IndexOfObject(globals, node.data.name);
        if i == -1 {
          globals := globals + [r];
        }
      }
    }

    /** `scopeIdentifier`: a declared identifier's name joins the current scope and the identifier is local. */
    method ScopeIdentifier(node: Node) returns (r: Node)
      requires node.data.Identifier? && DistinctGlobals(globals)
      requires |scopes| >= 1 && scopeDepth == |scopes| - 1
      modifies this`scopes, this`globals
      ensures r == MarkLocal(node, true)
      ensures scopes == old(scopes)[scopeDepth := AddName(old(scopes)[scopeDepth], node.data.name)]
      ensures globals == old(globals)
    {
      ScopeIdentifierName(node.data.name);
      r := AttachScope(node, true);
    }

    // ---------------------------------------------------------------------------------------------------
    // Location markers

    /** `createLocationMarker`: a marker starting at the current token. */
    function TokenMarker(): (m: Marker)
      requires token.Some?
      reads this`token
    {
      NewMarker(token.value, options.locations, options.ranges)
    }

    /** The location stack after `k` pops (a pop of the empty stack leaves it empty). */
    function Dropped(ls: seq<Marker>, k: nat): (r: seq<Marker>)
    {
      if k <= |ls| then ls[..|ls| - k] else []
    }

    /** `markLocation`: when locations are tracked, a marker for the current token is pushed. */
    method MarkLocation()
      requires token.Some?
      modifies this`locations
      ensures old(Valid()) ==> Valid()
      ensures locations == if trackLocations then old(locations) + [TokenMarker()] else old(locations)
    {
      if trackLocations {
        locations := locations + [TokenMarker()];
      }
    }

    /** `pushLocation(marker)`: when locations are tracked, the given marker is pushed. */
    method PushLocation(marker: Marker)
      modifies this`locations
      ensures old(Valid()) ==> Valid()
      ensures locations == if trackLocations then old(locations) + [marker] else old(locations)
    {
      if trackLocations {
        locations := locations + [marker];
      }
    }

    /**
      `finishNode`: when locations are tracked, the top marker is popped, completed with the end of the previous
      token and attached to the node. Without a marker the node has no location.
    */
    method FinishNode(data: NodeData) returns (n: Node)
      modifies this`locations
      ensures old(Valid()) ==> Valid()
      ensures trackLocations && |old(locations)| > 0 ==>
        && locations == old(locations)[..|old(locations)| - 1]
        && n == Bless(Complete(old(locations)[|old(locations)| - 1], previousToken), data)
      ensures !(trackLocations && |old(locations)| > 0) ==>
        locations == old(locations) && n == Node(data, None, None)
    {
      n := Node(data, None, None);
      if trackLocations {
        if |locations| > 0 {
          var location := locations[|locations| - 1];
          locations := locations[..|locations| - 1];
          n := Bless(Complete(location, previousToken), data);
        }
      }
    }

    // ---------------------------------------------------------------------------------------------------
    // Parse functions: what they keep and consume

    /** A parse function may run: the parser is valid and so is the flow context of the enclosing function body. */
    ghost predicate Ready(fc: FlowContext)
      reads this`line, this`lineStart, this`index, this`token, this`lookahead
      reads this`scopes, this`scopeDepth, this`globals, this`locations, fc.Obj()
    {
      var ok := Valid() && fc.Valid() && fc.Depth() > 0 && (fc.Full? <==> features.labels); ok
    }

    /**
      What a successful parse function keeps: a valid parser, `added` more scopes than before, the location
      stack with `pops` markers of its caller popped, and no more left to read than before.
    */
    twostate predicate Kept(pops: nat, added: int)
      reads this`line, this`lineStart, this`index, this`token, this`lookahead
      reads this`scopes, this`scopeDepth, this`globals, this`locations, this`previousToken
    {
      var ok := Valid()
      && |scopes| == |old(scopes)| + added
      && locations == Dropped(old(locations), pops)
      && Measure() <= old(Measure())
      && (old(previousToken).Some? ==> previousToken.Some?); ok
    }

    /** The flow context ends where it started: as many scopes, the same vararg permission. */
    twostate predicate FlowKept(fc: FlowContext)
      reads fc.Obj()
    {
      var ok := fc.Valid() && fc.Depth() == old(fc.Depth()) && fc.AllowVararg() == old(fc.AllowVararg()); ok
    }

    /** At least one token was taken. */
    twostate predicate Consumed()
      reads this`index, this`token, this`lookahead, this`previousToken
    {
      var ok := Measure() < old(Measure()) && previousToken.Some?; ok
    }

    // ---------------------------------------------------------------------------------------------------
    // Expressions

    /** `parseIdentifier`: a name token becomes an `Identifier` node; any other token raises `expected <name>`. */
    method ParseIdentifier() returns (r: Result<Node, SyntaxError>)
      requires Valid()
      modifies this
      ensures !old(token).value.kind.Identifier? ==>
        r == Failure(RaiseAt(old(token).value, ExpectedToken(L.NameExpected)))
      ensures r.Success? ==>
        && old(token).value.kind.Identifier?
        && r.value.data == NodeData.Identifier(old(token).value.value.text, None)
        && previousToken == old(token) && token == old(lookahead)
        && scopes == old(scopes) && globals == old(globals)
        && Kept(0, 0) && Consumed()
    {
      MarkLocation();
      var t := token.value;
      if !t.kind.Identifier? {
        return Failure(RaiseAt(t, ExpectedToken(L.NameExpected)));
      }
      :- NextLex();
      var n := FinishNode(NodeData.Identifier(t.value.text, None));
      return Success(n);
    }

    /** `expect(value)` and then `finishNode(data)`: the token that closes a construct, then its node. */
    method ExpectAndFinish(value: seq<int>, data: NodeData) returns (r: Result<Node, SyntaxError>)
      requires Valid() && value != L.EofText
      modifies this
      ensures !ValueIs(old(token).value, value) ==> r == Failure(RaiseAt(old(token).value, Expected(value)))
      ensures r.Success? ==> Kept(1, 0) && Consumed() && r.value.data == data && ValueIs(previousToken.value, value)
    {
      var step := Expect(value);
      if step.Fail? {
        return Failure(step.error);
      }
      var n := FinishNode(data);
      return Success(n);
    }

    /**
      `marker` is pushed and the current token taken: how a construct located from `marker` begins when its
      first token is the one at hand.
    */
    method PushAndTake(marker: Marker) returns (o: Outcome<SyntaxError>)
      requires Valid() && !token.value.kind.EOF?
      modifies this
      ensures o.Pass? ==> Valid() && Consumed() && previousToken == old(token) && token == old(lookahead)
      ensures o.Pass? ==> scopes == old(scopes) && globals == old(globals)
      ensures o.Pass? ==> locations == if trackLocations then old(locations) + [marker] else old(locations)
    {
      PushLocation(marker);
      o := NextLex();
    }

    /** `parseExpression`: a sub-expression at precedence 0, or nothing when no expression starts here. */
    method ParseExpression(fc: FlowContext) returns (r: Result<Option<Node>, SyntaxError>)
      requires Ready(fc)
      modifies this, fc.Obj()
      decreases Measure(), 120
      ensures !StartsExpression(old(token).value) ==> r == Success(None) && unchanged(this) && unchanged(fc.Obj())
      ensures r.Success? && StartsExpression(old(token).value) ==> r.value.Some?
      ensures r.Success? ==> Kept(0, 0) && FlowKept(fc)
      ensures r.Success? && r.value.Some? ==> Consumed()
    {
      r := ParseSubExpression(0, fc);
    }

    /** `parseExpectedExpression`: an expression, or `expected <expression>` at the token where none starts. */
    method ParseExpectedExpression(fc: FlowContext) returns (r: Result<Node, SyntaxError>)
      requires Ready(fc)
      modifies this, fc.Obj()
      decreases Measure(), 130
      ensures !StartsExpression(old(token).value) ==>
        r == Failure(RaiseAt(old(token).value, ExpectedToken(L.ExpressionExpected)))
      ensures r.Success? ==> Kept(0, 0) && FlowKept(fc) && Consumed()
    {
      var e :- ParseExpression(fc);
      if e.None? {
        return Failure(RaiseAt(token.value, ExpectedToken(L.ExpressionExpected)));
      }
      return Success(e.value);
    }

    /**
      The `do { exp } while (consume(','))` lists of the source: one expected expression, then one more after
      each `,`.
    */
    method ParseExpressionList(fc: FlowContext) returns (r: Result<seq<Node>, SyntaxError>)
      requires Ready(fc)
      modifies this, fc.Obj()
      decreases Measure(), 135
      ensures !StartsExpression(old(token).value) ==>
        r == Failure(RaiseAt(old(token).value, ExpectedToken(L.ExpressionExpected)))
      ensures r.Success? ==> Kept(0, 0) && FlowKept(fc) && Consumed() && |r.value| >= 1
      ensures r.Success? ==> !ValueIs(token.value, L.Comma)
    {
      var first :- ParseExpectedExpression(fc);
      r := ParseExpressionListTail([first], fc);
    }

    /** The `while (consume(','))` loop after a first expression: each `,` is followed by an expected expression. */
    method ParseExpressionListTail(init: seq<Node>, fc: FlowContext) returns (r: Result<seq<Node>, SyntaxError>)
      requires Ready(fc)
      modifies this, fc.Obj()
      decreases Measure(), 1
      ensures r.Success? ==> Kept(0, 0) && FlowKept(fc) && |r.value| >= |init| && r.value[..|init|] == init
      ensures r.Success? ==> !ValueIs(token.value, L.Comma)
      ensures r.Success? && |r.value| > |init| ==> Consumed()
    {
      var list := init;
      while true
        invariant Kept(0, 0) && FlowKept(fc) && |list| >= |init| && list[..|init|] == init
        invariant |list| > |init| ==> Consumed()
        decreases Measure()
      {
        var more :- Consume(L.Comma);
        if !more {
          break;
        }
        var e :- ParseExpectedExpression(fc);
        list := list + [e];
      }
      return Success(list);
    }

    /**
      `parseSubExpression`: precedence climbing. An operand comes first (`ParseOperand`); then, while the
      current token is a binary operator binding tighter than `minPrecedence`, its right operand is parsed
      at the operator's precedence (one less for the right-associative `^` and `..`). The expression ends at
      the first operator that does not bind tighter.
    */
    method ParseSubExpression(minPrecedence: int, fc: FlowContext) returns (r: Result<Option<Node>, SyntaxError>)
      requires Ready(fc)
      modifies this, fc.Obj()
      decreases Measure(), 110
      ensures !StartsExpression(old(token).value) ==> r == Success(None) && unchanged(this) && unchanged(fc.Obj())
      ensures r.Success? && StartsExpression(old(token).value) ==> r.value.Some?
      ensures r.Success? ==> Kept(0, 0) && FlowKept(fc)
      ensures r.Success? && r.value.Some? ==> Consumed() && !Continues(token.value, minPrecedence)
    {
      var marker := TokenMarker();
      var expression :- ParseOperand(fc);
      if expression.None? {
        return Success(None);
      }
      var e := expression.value;
      while true
        invariant Kept(0, 0) && FlowKept(fc) && Consumed()
        decreases Measure()
      {
        var precedence := OperatorPrecedence(token.value);
        if precedence == 0 || precedence <= minPrecedence {
          break;
        }
        e :- ParseBinaryExpression(e, marker, fc);
      }
      return Success(Some(e));
    }

    /**
      The operand `parseSubExpression` starts with: a unary operator and its operand, else a primary
      expression, else a prefix expression; nothing when none of them starts at the token.
    */
    method ParseOperand(fc: FlowContext) returns (r: Result<Option<Node>, SyntaxError>)
      requires Ready(fc)
      modifies this, fc.Obj()
      decreases Measure(), 100
      ensures !StartsExpression(old(token).value) ==> r == Success(None) && unchanged(this) && unchanged(fc.Obj())
      ensures r.Success? && StartsExpression(old(token).value) ==> r.value.Some?
      ensures r.Success? ==> Kept(0, 0) && FlowKept(fc)
      ensures r.Success? && r.value.Some? ==> Consumed()
      ensures r.Success? && IsUnary(old(token).value) ==>
        && r.value.value.data.UnaryExpression? && r.value.value.data.operator == old(token).value.value.text
        && !Continues(token.value, UnaryPrecedence)
      ensures r.Success? && IsLiteralKind(old(token).value.kind) ==>
        var t := old(token).value;
        r.value == Some(Node(MakeLiteral(t.kind, t.value, input[t.start..t.end]), r.value.value.loc, r.value.value.range))
      ensures r.Success? && old(token).value.kind.Keyword? && ValueIs(old(token).value, L.Function) ==>
        r.value.value.data.FunctionDeclaration? && r.value.value.data.identifier.None?
        && !r.value.value.data.isLocalFunction && ParameterList(r.value.value.data.parameters)
      ensures (r.Success? && StartsPrimary(old(token).value) && !IsLiteralKind(old(token).value.kind)
        && !(old(token).value.kind.Keyword? && ValueIs(old(token).value, L.Function))) ==>
        r.value.value.data.TableConstructorExpression?
      ensures r.Success? && !StartsPrimary(old(token).value) && !IsUnary(old(token).value) && r.value.Some? ==>
        !StartsSuffix(token.value)
    {
      if IsUnary(token.value) {
        var n :- ParseUnaryExpression(fc);
        return Success(Some(n));
      }
      var expression :- ParsePrimaryExpression(fc);
      if expression.None? {
        expression :- ParsePrefixExpression(fc);
      }
      return Success(expression);
    }

    /**
      A unary operator (located from its own token) and its operand, parsed at the unary precedence 10: the
      operand takes in every `^` that follows it and stops at any other binary operator.
    */
    method ParseUnaryExpression(fc: FlowContext) returns (r: Result<Node, SyntaxError>)
      requires Ready(fc) && IsUnary(token.value)
      modifies this, fc.Obj()
      decreases Measure(), 95
      ensures r.Success? ==> Kept(0, 0) && FlowKept(fc) && Consumed()
      ensures r.Success? ==> r.value.data.UnaryExpression? && r.value.data.operator == old(token).value.value.text
      ensures r.Success? ==> !Continues(token.value, UnaryPrecedence)
      ensures r.Success? && (token.value.kind.Punctuator? || token.value.kind.Keyword?) ==>
        token.value.value != Text(L.Caret)
    {
      var t := token.value;
      :- PushAndTake(TokenMarker());
      var argument :- ParseSubExpression(UnaryPrecedence, fc);
      if argument.None? {
        return Failure(RaiseAt(token.value, ExpectedToken(L.ExpressionExpected)));
      }
      var n := FinishNode(UnaryExpression(t.value.text, argument.value));
      UnaryBindsTighterExceptPower(L.Caret);
      return Success(n);
    }

    /**
      One turn of the operator loop of `parseSubExpression`: the operator is taken, its right operand is
      parsed at the operator's precedence (one less for the right-associative `^` and `..`), and the node is
      located from `marker`, where the left operand starts. The right operand stops at an operator that does
      not bind tighter; so it never stops at a second `^` or `..` of the same text, while every other operator
      ends it at its own next occurrence.
    */
    method ParseBinaryExpression(left: Node, marker: Marker, fc: FlowContext)
      returns (r: Result<Node, SyntaxError>)
      requires Ready(fc) && OperatorPrecedence(token.value) > 0
      modifies this, fc.Obj()
      decreases Measure(), 105
      ensures r.Success? ==> Kept(0, 0) && FlowKept(fc) && Consumed()
      ensures r.Success? ==>
        && (r.value.data.BinaryExpression? || r.value.data.LogicalExpression?)
        && r.value.data == MakeBinary(old(token).value.value.text, left, r.value.data.right)
      ensures r.Success? ==> !Continues(token.value, RightOperandPrecedence(old(token).value.value.text))
      ensures r.Success? && (token.value.kind.Punctuator? || token.value.kind.Keyword?) && token.value.value == old(token).value.value
        ==> old(token).value.value.text != L.Caret && old(token).value.value.text != L.DotDot
    {
      var operator := token.value;
      :- NextLex();
      var right :- ParseSubExpression(RightOperandPrecedence(operator.value.text), fc);
      if right.None? {
        return Failure(RaiseAt(token.value, ExpectedToken(L.ExpressionExpected)));
      }
      PushLocation(marker);
      var n := FinishNode(MakeBinary(operator.value.text, left, right.value));
      Associativity(operator.value.text);
      return Success(n);
    }

    /**
      `parsePrimaryExpression`: a literal (with its source text as `raw`), a function expression or a table
      constructor; nothing for any other token. `...` outside a vararg function raises `cannotUseVararg`.
    */
    method ParsePrimaryExpression(fc: FlowContext) returns (r: Result<Option<Node>, SyntaxError>)
      requires Ready(fc)
      modifies this, fc.Obj()
      decreases Measure(), 60
      ensures old(token).value.kind.VarargLiteral? && !old(fc.AllowVararg()) ==>
        r == Failure(RaiseAt(old(token).value, CannotUseVararg))
      ensures !StartsPrimary(old(token).value) ==> r == Success(None) && unchanged(this) && unchanged(fc.Obj())
      ensures r.Success? && StartsPrimary(old(token).value) ==> r.value.Some?
      ensures r.Success? ==> Kept(0, 0) && FlowKept(fc)
      ensures r.Success? && r.value.Some? ==> Consumed()
      ensures r.Success? && IsLiteralKind(old(token).value.kind) ==>
        var t := old(token).value;
        r.value == Some(Node(MakeLiteral(t.kind, t.value, input[t.start..t.end]), r.value.value.loc, r.value.value.range))
      ensures r.Success? && old(token).value.kind.Keyword? && ValueIs(old(token).value, L.Function) ==>
        r.value.value.data.FunctionDeclaration? && r.value.value.data.identifier.None?
        && !r.value.value.data.isLocalFunction && ParameterList(r.value.value.data.parameters)
      ensures (r.Success? && StartsPrimary(old(token).value) && !IsLiteralKind(old(token).value.kind)
        && !(old(token).value.kind.Keyword? && ValueIs(old(token).value, L.Function))) ==>
        r.value.value.data.TableConstructorExpression?
        && (forall f <- r.value.value.data.fields :: TableField(f))
    {
      var t := token.value;
      if t.kind.VarargLiteral? && !fc.AllowVararg() {
        return Failure(RaiseAt(t, CannotUseVararg));
      }
      if IsLiteralKind(t.kind) {
        var n :- ParseLiteral();
        return Success(Some(n));
      } else if t.kind.Keyword? && ValueIs(t, L.Function) {
        var f :- ParseFunctionExpression();
        return Success(Some(f));
      } else {
        var marker := TokenMarker();
        var brace :- Consume(L.LBrace);
        if brace {
          var table :- ParseMarkedTable(marker, fc);
          return Success(Some(table));
        }
      }
      return Success(None);
    }

    /** A literal token becomes a literal node, located at the token, with its source text as `raw`. */
    method ParseLiteral() returns (r: Result<Node, SyntaxError>)
      requires Valid() && IsLiteralKind(token.value.kind)
      modifies this
      ensures r.Success? ==> Kept(0, 0) && Consumed()
      ensures r.Success? ==>
        var t := old(token).value;
        r.value == Node(MakeLiteral(t.kind, t.value, input[t.start..t.end]), r.value.loc, r.value.range)
    {
      var t := token.value;
      PushLocation(TokenMarker());
      var raw := input[t.start..t.end];
      :- NextLex();
      var n := FinishNode(MakeLiteral(t.kind, t.value, raw));
      return Success(n);
    }

    /** A function expression, from the keyword `function`: a new scope when scopes are tracked, then the declaration. */
    method ParseFunctionExpression() returns (r: Result<Node, SyntaxError>)
      requires Valid() && token.value.kind.Keyword? && ValueIs(token.value, L.Function)
      modifies this
      decreases Measure(), 55
      ensures r.Success? ==> Kept(0, 0) && Consumed()
      ensures r.Success? ==>
        r.value.data.FunctionDeclaration? && r.value.data.identifier.None?
        && !r.value.data.isLocalFunction && ParameterList(r.value.data.parameters)
    {
      PushLocation(TokenMarker());
      :- NextLex();
      if options.scope {
        CreateScope();
      }
      r := ParseFunctionDeclaration(None, false);
    }

    /** After a `{`: the table constructor, located from the marker of the `{`. */
    method ParseMarkedTable(marker: Marker, fc: FlowContext) returns (r: Result<Node, SyntaxError>)
      requires Ready(fc)
      modifies this, fc.Obj()
      decreases Measure(), 170
      ensures r.Success? ==> Kept(0, 0) && FlowKept(fc) && Consumed()
      ensures r.Success? ==>
        r.value.data.TableConstructorExpression? && (forall f <- r.value.data.fields :: TableField(f))
    {
      PushLocation(marker);
      r := ParseTableConstructor(fc);
    }

    /**
      `parsePrefixExpression`: a name (marked local or global when scopes are tracked) or a parenthesized
      expression, followed by every suffix that follows it.
    */
    method ParsePrefixExpression(fc: FlowContext) returns (r: Result<Option<Node>, SyntaxError>)
      requires Ready(fc)
      modifies this, fc.Obj()
      decreases Measure(), 90
      ensures !StartsPrefix(old(token).value) ==> r == Success(None) && unchanged(this) && unchanged(fc.Obj())
      ensures r.Success? && StartsPrefix(old(token).value) ==> r.value.Some?
      ensures r.Success? ==> Kept(0, 0) && FlowKept(fc)
      ensures r.Success? && r.value.Some? ==> Consumed() && !StartsSuffix(token.value)
    {
      var marker := TokenMarker();
      var base :- ParsePrefixBase(fc);
      if base.None? {
        return Success(None);
      }
      var e := base.value;
      while true
        invariant Kept(0, 0) && FlowKept(fc) && Consumed()
        decreases Measure()
      {
        var next :- ParsePrefixExpressionPart(e, marker, fc);
        if next.None? {
          break;
        }
        e := next.value;
      }
      return Success(Some(e));
    }

    /**
      What a prefix expression starts with: a name (marked local or global when scopes are tracked) or a
      parenthesized expression; nothing at any other token.
    */
    method ParsePrefixBase(fc: FlowContext) returns (r: Result<Option<Node>, SyntaxError>)
      requires Ready(fc)
      modifies this, fc.Obj()
      decreases Measure(), 85
      ensures !StartsPrefix(old(token).value) ==> r == Success(None) && unchanged(this) && unchanged(fc.Obj())
      ensures r.Success? && StartsPrefix(old(token).value) ==> r.value.Some?
      ensures r.Success? ==> Kept(0, 0) && FlowKept(fc)
      ensures r.Success? && r.value.Some? ==> Consumed()
      ensures r.Success? && old(token).value.kind.Identifier? ==>
        r.value.value.data.Identifier? && r.value.value.data.name == old(token).value.value.text
    {
      if token.value.kind.Identifier? {
        var name :- ParseNameReference();
        return Success(Some(name));
      }
      var paren :- Consume(L.LParen);
      if !paren {
        return Success(None);
      }
      var e :- ParseExpectedExpression(fc);
      :- Expect(L.RParen);
      return Success(Some(e));
    }

    /**
      A name read as an expression: `parseIdentifier`, then, when scopes are tracked, `attachScope` marks it
      local exactly when the current scope declares the name (a global joins `globals`).
    */
    method ParseNameReference() returns (r: Result<Node, SyntaxError>)
      requires Valid()
      modifies this
      ensures !old(token).value.kind.Identifier? ==>
        r == Failure(RaiseAt(old(token).value, ExpectedToken(L.NameExpected)))
      ensures r.Success? ==> Kept(0, 0) && Consumed() && scopes == old(scopes) && old(token).value.kind.Identifier?
      ensures r.Success? ==>
        var name := old(token).value.value.text;
        && r.value.data.Identifier? && r.value.data.name == name
        && r.value.data.isLocal == (if options.scope then Some(name in old(scopes)[|old(scopes)| - 1]) else None)
        && globals == (if options.scope then AddGlobal(old(globals), r.value, name in old(scopes)[|old(scopes)| - 1])
                       else old(globals))
    {
      var t := token.value;
      r := ParseIdentifier();
      if r.Success? && options.scope {
        var base := AttachScope(r.value, ScopeHasName(t.value.text));
        r := Success(base);
      }
    }

    /**
      `parsePrefixExpressionPart`: one suffix on `base`, located from `marker`: `[exp]` gives an index
      expression, `.name` a member expression, `:name args` a call on a `:` member, and `(`, `{` or a string
      a call on `base`. Any other token ends the chain.
    */
    method ParsePrefixExpressionPart(base: Node, marker: Marker, fc: FlowContext) returns (r: Result<Option<Node>, SyntaxError>)
      requires Ready(fc) && previousToken.Some?
      modifies this, fc.Obj()
      decreases Measure(), 80
      ensures !StartsSuffix(old(token).value) ==> r == Success(None) && unchanged(this) && unchanged(fc.Obj())
      ensures r.Success? && StartsSuffix(old(token).value) ==> r.value.Some?
      ensures r.Success? ==> Kept(0, 0) && FlowKept(fc)
      ensures r.Success? && r.value.Some? ==> Consumed()
      ensures r.Success? && r.value.Some? ==>
        var t := old(token).value;
        var n := r.value.value;
        && (t.kind.Punctuator? && ValueIs(t, L.LBracket) ==> n.data.IndexExpression? && n.data.base == base)
        && (t.kind.Punctuator? && ValueIs(t, L.Dot) ==>
          n.data.MemberExpression? && n.data.indexer == L.Dot && n.data.base == base && n.data.member.data.Identifier?)
        && (t.kind.Punctuator? && ValueIs(t, L.Colon) ==>
          IsCall(n) && IsMethodCallBase(n.data.base) && n.data.base.data.base == base)
        && ((t.kind.Punctuator? && (ValueIs(t, L.LParen) || ValueIs(t, L.LBrace))) || t.kind.StringLiteral? ==>
          IsCall(n) && n.data.base == base)
    {
      var t := token.value;
      if t.kind.Punctuator? && ValueIs(t, L.LBracket) {
        var n :- ParseIndexExpression(base, marker, fc);
        return Success(Some(n));
      } else if t.kind.Punctuator? && ValueIs(t, L.Dot) {
        var n :- ParseMemberExpression(base, marker, L.Dot);
        return Success(Some(n));
      } else if t.kind.Punctuator? && ValueIs(t, L.Colon) {
        var n :- ParseMethodCall(base, marker, fc);
        return Success(Some(n));
      } else if StartsArguments(t) {
        var n :- ParseCallOn(base, marker, fc);
        return Success(Some(n));
      }
      return Success(None);
    }

    /** `[exp]` on `base`: an index expression located from `marker`. */
    method ParseIndexExpression(base: Node, marker: Marker, fc: FlowContext) returns (r: Result<Node, SyntaxError>)
      requires Ready(fc) && ValueIs(token.value, L.LBracket)
      modifies this, fc.Obj()
      decreases Measure(), 75
      ensures r.Success? ==> Kept(0, 0) && FlowKept(fc) && Consumed()
      ensures r.Success? ==> r.value.data.IndexExpression? && r.value.data.base == base
    {
      var step := PushAndTake(marker);
      if step.Fail? {
        return Failure(step.error);
      }
      var index :- ParseExpectedExpression(fc);
      r := ExpectAndFinish(L.RBracket, IndexExpression(base, index));
    }

    /**
      `.name` or `:name` on `base`: a member expression located from `marker` (the `:` form is the callee of
      a method call, and also the method part of a function name).
    */
    method ParseMemberExpression(base: Node, marker: Marker, indexer: seq<int>) returns (r: Result<Node, SyntaxError>)
      requires Valid() && (indexer == L.Dot || indexer == L.Colon) && ValueIs(token.value, indexer)
      modifies this
      ensures r.Success? ==> Kept(0, 0) && Consumed() && scopes == old(scopes) && globals == old(globals)
      ensures r.Success? ==>
        && r.value.data.MemberExpression? && r.value.data.indexer == indexer && r.value.data.base == base
        && r.value.data.member.data.Identifier?
    {
      var step := PushAndTake(marker);
      if step.Fail? {
        return Failure(step.error);
      }
      var name :- ParseIdentifier();
      var n := FinishNode(MemberExpression(indexer, name, base));
      return Success(n);
    }

    /** `:name args` on `base`: a call whose callee is the `:` member, both located from `marker`. */
    method ParseMethodCall(base: Node, marker: Marker, fc: FlowContext) returns (r: Result<Node, SyntaxError>)
      requires Ready(fc) && ValueIs(token.value, L.Colon)
      modifies this, fc.Obj()
      decreases Measure(), 76
      ensures r.Success? ==> Kept(0, 0) && FlowKept(fc) && Consumed()
      ensures r.Success? ==> IsCall(r.value) && IsMethodCallBase(r.value.data.base) && r.value.data.base.data.base == base
    {
      var member :- ParseMemberExpression(base, marker, L.Colon);
      r := ParseCallOn(member, marker, fc);
    }

    /** Arguments after `base`: the marker is pushed again for the call, which `parseCallExpression` parses. */
    method ParseCallOn(base: Node, marker: Marker, fc: FlowContext) returns (r: Result<Node, SyntaxError>)
      requires Ready(fc) && previousToken.Some?
      modifies this, fc.Obj()
      decreases Measure(), 75
      ensures !StartsArguments(old(token).value) ==>
        r == Failure(RaiseAt(old(token).value, ExpectedToken(L.ArgumentsExpected)))
      ensures r.Success? ==> Kept(0, 0) && FlowKept(fc) && Consumed() && IsCall(r.value) && r.value.data.base == base
    {
      PushLocation(marker);
      r := ParseCallExpression(base, fc);
    }

    /**
      `parseCallExpression`: the arguments of a call on `base` (see `ParseCallArguments`), which pops its
      caller's marker.
    */
    method ParseCallExpression(base: Node, fc: FlowContext) returns (r: Result<Node, SyntaxError>)
      requires Ready(fc) && previousToken.Some? && (trackLocations ==> |locations| >= 1)
      modifies this, fc.Obj()
      decreases Measure(), 70
      ensures !StartsArguments(old(token).value) ==>
        r == Failure(RaiseAt(old(token).value, ExpectedToken(L.ArgumentsExpected)))
      ensures (old(token).value.kind.Punctuator? && ValueIs(old(token).value, L.LParen) && !features.emptyStatement
        && old(token).value.line != old(previousToken).value.line) ==>
        r == Failure(RaiseHere(AmbiguousSyntax, old(line), old(lineStart), old(index)))
      ensures r.Success? ==> Kept(1, 0) && FlowKept(fc) && Consumed() && IsCall(r.value) && r.value.data.base == base
      ensures r.Success? && old(token).value.kind.Punctuator? && ValueIs(old(token).value, L.LParen) ==>
        r.value.data.CallExpression? && ValueIs(previousToken.value, L.RParen)
      ensures r.Success? && old(token).value.kind.Punctuator? && ValueIs(old(token).value, L.LBrace) ==>
        r.value.data.TableCallExpression? && r.value.data.table.data.TableConstructorExpression?
      ensures r.Success? && old(token).value.kind.StringLiteral? ==>
        r.value.data.StringCallExpression? && r.value.data.argument.data.Literal?
        && r.value.data.argument.data.kind == StringLiteralNode
    {
      var data :- ParseCallArguments(base, fc);
      var n := FinishNode(data);
      return Success(n);
    }

    /**
      The arguments of a call on `base` and the call they make. A `(` on a later line than the end of `base`
      is `ambiguousSyntax` in dialects without empty statements (Lua 5.1 and LuaJIT); a string argument is
      parsed as the literal it is; any token other than `(`, `{` or a string raises `expected function
      arguments`.
    */
    method ParseCallArguments(base: Node, fc: FlowContext) returns (r: Result<NodeData, SyntaxError>)
      requires Ready(fc) && previousToken.Some?
      modifies this, fc.Obj()
      decreases Measure(), 68
      ensures !StartsArguments(old(token).value) ==>
        r == Failure(RaiseAt(old(token).value, ExpectedToken(L.ArgumentsExpected)))
      ensures (old(token).value.kind.Punctuator? && ValueIs(old(token).value, L.LParen) && !features.emptyStatement
        && old(token).value.line != old(previousToken).value.line) ==>
        r == Failure(RaiseHere(AmbiguousSyntax, old(line), old(lineStart), old(index)))
      ensures r.Success? ==> Kept(0, 0) && FlowKept(fc) && Consumed()
      ensures r.Success? ==> (r.value.CallExpression? || r.value.TableCallExpression? || r.value.StringCallExpression?)
      ensures r.Success? ==> r.value.base == base
      ensures r.Success? && old(token).value.kind.Punctuator? && ValueIs(old(token).value, L.LParen) ==>
        r.value.CallExpression? && ValueIs(previousToken.value, L.RParen)
      ensures r.Success? && old(token).value.kind.Punctuator? && ValueIs(old(token).value, L.LBrace) ==>
        r.value.TableCallExpression? && r.value.table.data.TableConstructorExpression?
      ensures r.Success? && old(token).value.kind.StringLiteral? ==>
        r.value.StringCallExpression? && r.value.argument.data.Literal? && r.value.argument.data.kind == StringLiteralNode
    {
      var t := token.value;
      if t.kind.Punctuator? && ValueIs(t, L.LParen) {
        if !features.emptyStatement && t.line != previousToken.value.line {
          return Failure(Here(AmbiguousSyntax));
        }
        var arguments :- ParseArguments(fc);
        return Success(CallExpression(base, arguments));
      } else if t.kind.Punctuator? && ValueIs(t, L.LBrace) {
        var table :- ParseTableArgument(fc);
        return Success(TableCallExpression(base, table));
      } else if t.kind.StringLiteral? {
        var argument :- ParseLiteral();
        return Success(StringCallExpression(base, argument));
      }
      return Failure(RaiseAt(t, ExpectedToken(L.ArgumentsExpected)));
    }

    /**
      `(` arguments `)`: an optional first expression, then the `,`-separated rest. A `,` right after `(`
      is taken like any other, so `f(, x)` passes `x`.
    */
    method ParseArguments(fc: FlowContext) returns (r: Result<seq<Node>, SyntaxError>)
      requires Ready(fc) && ValueIs(token.value, L.LParen)
      modifies this, fc.Obj()
      decreases Measure(), 65
      ensures r.Success? ==> Kept(0, 0) && FlowKept(fc) && Consumed() && ValueIs(previousToken.value, L.RParen)
      ensures r.Success? && StartsExpression(old(lookahead).value) ==> |r.value| >= 1
    {
      var step := NextLex();
      if step.Fail? {
        return Failure(step.error);
      }
      var first :- ParseExpression(fc);
      r := CloseArguments(if first.Some? then [first.value] else [], fc);
    }

    /** The rest of the arguments after the first, `,` by `,`, then the closing `)`. */
    method CloseArguments(init: seq<Node>, fc: FlowContext) returns (r: Result<seq<Node>, SyntaxError>)
      requires Ready(fc)
      modifies this, fc.Obj()
      decreases Measure(), 64
      ensures r.Success? ==> Kept(0, 0) && FlowKept(fc) && Consumed() && ValueIs(previousToken.value, L.RParen)
      ensures r.Success? ==> |r.value| >= |init| && r.value[..|init|] == init
    {
      var arguments := ParseExpressionListTail(init, fc);
      if arguments.Failure? {
        return Failure(arguments.error);
      }
      var step := Expect(L.RParen);
      if step.Fail? {
        return Failure(step.error);
      }
      return Success(arguments.value);
    }

    /** A table argument: a marker at the `{`, which the table constructor pops. */
    method ParseTableArgument(fc: FlowContext) returns (r: Result<Node, SyntaxError>)
      requires Ready(fc) && ValueIs(token.value, L.LBrace)
      modifies this, fc.Obj()
      decreases Measure(), 65
      ensures r.Success? ==> Kept(0, 0) && FlowKept(fc) && Consumed() && r.value.data.TableConstructorExpression?
    {
      var step := PushAndTake(TokenMarker());
      if step.Fail? {
        return Failure(step.error);
      }
      r := ParseTableConstructor(fc);
    }

    /**
      `parseTableConstructor`, after the `{`: fields (see `ParseTableField`), each but the last followed by a
      token whose value occurs in ",;". It pops the marker its caller pushed for the table and ends at `}`.
    */
    method ParseTableConstructor(fc: FlowContext) returns (r: Result<Node, SyntaxError>)
      requires Ready(fc) && (trackLocations ==> |locations| >= 1)
      modifies this, fc.Obj()
      decreases Measure(), 160
      ensures r.Success? ==> Kept(1, 0) && FlowKept(fc) && Consumed()
      ensures r.Success? ==>
        && r.value.data.TableConstructorExpression?
        && (forall f <- r.value.data.fields :: TableField(f))
        && ValueIs(previousToken.value, L.RBrace)
    {
      var fields :- ParseTableFields(fc);
      r := ExpectAndFinish(L.RBrace, TableConstructorExpression(fields));
    }

    /** The fields of a table, each but the last followed by `,` or `;`. */
    method ParseTableFields(fc: FlowContext) returns (r: Result<seq<Node>, SyntaxError>)
      requires Ready(fc)
      modifies this, fc.Obj()
      decreases Measure(), 159
      ensures r.Success? ==> Kept(0, 0) && FlowKept(fc) && forall f <- r.value :: TableField(f)
    {
      var fields: seq<Node> := [];
      while true
        invariant Kept(0, 0) && FlowKept(fc)
        invariant forall f <- fields :: TableField(f)
        decreases Measure()
      {
        var field :- ParseTableField(fc);
        if field.None? {
          break;
        }
        fields := fields + [field.value];
        if !ValueOccursIn(token.value.value, [44, 59]) {
          break;
        }
        :- NextLex();
      }
      return Success(fields);
    }

    /**
      One field of a table constructor, located from its first token (see `ParseMarkedField`); nothing, the
      marker dropped, when no value starts there.
    */
    method ParseTableField(fc: FlowContext) returns (r: Result<Option<Node>, SyntaxError>)
      requires Ready(fc)
      modifies this, fc.Obj()
      decreases Measure(), 158
      ensures r.Success? ==> Kept(0, 0) && FlowKept(fc)
      ensures r.Success? && r.value.Some? ==> Consumed() && TableField(r.value.value)
      ensures r.Success? && old(token).value.kind.Identifier? ==> r.value.Some?
    {
      MarkLocation();
      r := ParseMarkedField(fc);
    }

    /**
      A field after its marker: `[k] = v` after a `[` punctuator, `name = v` at a name whose lookahead has
      the value `=`, an expected value at any other name, and an optional value at any other token.
    */
    method ParseMarkedField(fc: FlowContext) returns (r: Result<Option<Node>, SyntaxError>)
      requires Ready(fc) && (trackLocations ==> |locations| >= 1)
      modifies this, fc.Obj()
      decreases Measure(), 156
      ensures r.Success? ==> Kept(1, 0) && FlowKept(fc)
      ensures r.Success? && r.value.Some? ==> Consumed() && TableField(r.value.value)
      ensures r.Success? && old(token).value.kind.Identifier? ==> r.value.Some?
    {
      var t := token.value;
      if t.kind.Punctuator? && ValueIs(t, L.LBracket) {
        var n :- ParseKeyedField(fc);
        return Success(Some(n));
      } else if t.kind.Identifier? && ValueIs(lookahead.value, L.Assign) {
        var n :- ParseNamedField(fc);
        return Success(Some(n));
      }
      r := ParsePositionalField(t.kind.Identifier?, fc);
    }

    /** `[k] = v`, at the `[`. */
    method ParseKeyedField(fc: FlowContext) returns (r: Result<Node, SyntaxError>)
      requires Ready(fc) && (trackLocations ==> |locations| >= 1) && ValueIs(token.value, L.LBracket)
      modifies this, fc.Obj()
      decreases Measure(), 154
      ensures r.Success? ==> Kept(1, 0) && FlowKept(fc) && Consumed() && r.value.data.TableKey?
    {
      var key :- ParseBracketedKey(fc);
      r := ParseFieldValue(key, true, fc);
    }

    /** `[k]` of a keyed field, at the `[`. */
    method ParseBracketedKey(fc: FlowContext) returns (r: Result<Node, SyntaxError>)
      requires Ready(fc) && ValueIs(token.value, L.LBracket)
      modifies this, fc.Obj()
      decreases Measure(), 152
      ensures r.Success? ==> Kept(0, 0) && FlowKept(fc) && Consumed() && ValueIs(previousToken.value, L.RBracket)
    {
      var step := NextLex();
      if step.Fail? {
        return Failure(step.error);
      }
      var key :- ParseExpectedExpression(fc);
      :- Expect(L.RBracket);
      return Success(key);
    }

    /** `name = v`, at a name whose lookahead has the value `=` (the source takes that `=` with `nextLex`). */
    method ParseNamedField(fc: FlowContext) returns (r: Result<Node, SyntaxError>)
      requires Ready(fc) && (trackLocations ==> |locations| >= 1)
      requires token.value.kind.Identifier? && ValueIs(lookahead.value, L.Assign)
      modifies this, fc.Obj()
      decreases Measure(), 154
      ensures r.Success? ==> Kept(1, 0) && FlowKept(fc) && Consumed()
      ensures r.Success? ==> r.value.data.TableKeyString? && r.value.data.key.data.Identifier?
    {
      var key :- ParseIdentifier();
      r := ParseFieldValue(key, false, fc);
    }

    /**
      `= v` after a field key, and the field node: `tableKey` after a bracketed key, `tableKeyString` after a
      name (where the source takes the `=` with `nextLex`, its lookahead having shown it).
    */
    method ParseFieldValue(key: Node, bracketed: bool, fc: FlowContext) returns (r: Result<Node, SyntaxError>)
      requires Ready(fc) && (trackLocations ==> |locations| >= 1)
      modifies this, fc.Obj()
      decreases Measure(), 145
      ensures !ValueIs(old(token).value, L.Assign) ==> r == Failure(RaiseAt(old(token).value, Expected(L.Assign)))
      ensures r.Success? ==> Kept(1, 0) && FlowKept(fc) && Consumed()
      ensures r.Success? ==> (if bracketed then r.value.data.TableKey? else r.value.data.TableKeyString?) && r.value.data.key == key
    {
      var value :- ParseAssignedValue(fc);
      var n := FinishNode(if bracketed then TableKey(key, value) else TableKeyString(key, value));
      return Success(n);
    }

    /** An `=` and the expression after it. */
    method ParseAssignedValue(fc: FlowContext) returns (r: Result<Node, SyntaxError>)
      requires Ready(fc)
      modifies this, fc.Obj()
      decreases Measure(), 140
      ensures !ValueIs(old(token).value, L.Assign) ==> r == Failure(RaiseAt(old(token).value, Expected(L.Assign)))
      ensures r.Success? ==> Kept(0, 0) && FlowKept(fc) && Consumed()
    {
      var step := Expect(L.Assign);
      if step.Fail? {
        return Failure(step.error);
      }
      r := ParseExpectedExpression(fc);
    }

    /** A positional field: an expected value when `required`, else an optional one; the marker is dropped when there is none. */
    method ParsePositionalField(required: bool, fc: FlowContext) returns (r: Result<Option<Node>, SyntaxError>)
      requires Ready(fc) && (trackLocations ==> |locations| >= 1)
      modifies this, fc.Obj()
      decreases Measure(), 150
      ensures r.Success? ==> Kept(1, 0) && FlowKept(fc)
      ensures r.Success? && required ==> r.value.Some?
      ensures r.Success? && r.value.Some? ==> Consumed() && r.value.value.data.TableValue?
      ensures !StartsExpression(old(token).value) && !required ==> r.Success? && r.value.None?
    {
      var value :- ParseFieldExpression(required, fc);
      if value.None? {
        if |locations| > 0 {
          locations := locations[..|locations| - 1];
        }
        return Success(None);
      }
      var n := FinishNode(TableValue(value.value));
      return Success(Some(n));
    }

    /** The value of a positional field: expected when `required`, else optional. */
    method ParseFieldExpression(required: bool, fc: FlowContext) returns (r: Result<Option<Node>, SyntaxError>)
      requires Ready(fc)
      modifies this, fc.Obj()
      decreases Measure(), 148
      ensures r.Success? ==> Kept(0, 0) && FlowKept(fc)
      ensures r.Success? && required ==> r.value.Some?
      ensures r.Success? && r.value.Some? ==> Consumed()
      ensures !StartsExpression(old(token).value) && !required ==> r == Success(None)
    {
      if required {
        var e :- ParseExpectedExpression(fc);
        return Success(Some(e));
      }
      r := ParseExpression(fc);
    }

    // ---------------------------------------------------------------------------------------------------
    // Scopes around blocks

    /** A new scope when scopes are tracked, and a new flow scope (a loop's when `isLoop`). */
    method OpenScope(fc: FlowContext, isLoop: bool)
      requires Ready(fc)
      modifies this`scopes, this`scopeDepth, fc.Obj()
      ensures Valid() && fc.Valid() && |scopes| == |old(scopes)| + (if options.scope then 1 else 0)
      ensures fc.Depth() == old(fc.Depth()) + 1 && fc.AllowVararg() == old(fc.AllowVararg())
    {
      if options.scope {
        CreateScope();
      }
      FlowPushScope(fc, isLoop);
    }

    /** The flow scope is closed (which raises the gotos it leaves unresolved), then the scope when scopes are tracked. */
    method CloseScope(fc: FlowContext) returns (o: Outcome<SyntaxError>)
      requires Valid() && fc.Valid() && fc.Depth() > 0 && (options.scope ==> |scopes| >= 2)
      modifies this`scopes, this`scopeDepth, fc.Obj()
      ensures o.Pass? ==> Valid() && fc.Valid() && |scopes| == |old(scopes)| - (if options.scope then 1 else 0)
      ensures o.Pass? ==> fc.Depth() == old(fc.Depth()) - 1 && fc.AllowVararg() == old(fc.AllowVararg())
    {
      o := FlowPopScope(fc);
      if o.Fail? {
        return;
      }
      if options.scope {
        DestroyScope();
      }
    }

    /**
      `end`, the scope the construct opened closed when scopes are tracked, and the construct's node: how
      function bodies and `for` loops end.
    */
    method CloseScopedNode(data: NodeData) returns (r: Result<Node, SyntaxError>)
      requires Valid() && (options.scope ==> |scopes| >= 2)
      modifies this
      ensures !ValueIs(old(token).value, L.End) ==> r == Failure(RaiseAt(old(token).value, Expected(L.End)))
      ensures r.Success? ==>
        Kept(1, if options.scope then -1 else 0) && Consumed() && r.value.data == data && ValueIs(previousToken.value, L.End)
    {
      var step := Expect(L.End);
      if step.Fail? {
        return Failure(step.error);
      }
      if options.scope {
        DestroyScope();
      }
      var n := FinishNode(data);
      return Success(n);
    }

    // ---------------------------------------------------------------------------------------------------
    // Functions

    /**
      `parseFunctionDeclaration`, after the name: a fresh flow context with one scope, the parameter list and
      the body. It pops the marker its caller pushed and closes the scope its caller opened when scopes are
      tracked.
    */
    method ParseFunctionDeclaration(name: Option<Node>, isLocal: bool) returns (r: Result<Node, SyntaxError>)
      requires Valid() && (options.scope ==> |scopes| >= 2) && (trackLocations ==> |locations| >= 1)
      modifies this
      decreases Measure(), 320
      ensures !ValueIs(old(token).value, L.LParen) ==> r == Failure(RaiseAt(old(token).value, Expected(L.LParen)))
      ensures r.Success? ==> Kept(1, if options.scope then -1 else 0) && Consumed()
      ensures r.Success? ==>
        && r.value.data.FunctionDeclaration?
        && r.value.data.identifier == name && r.value.data.isLocalFunction == isLocal
        && ParameterList(r.value.data.parameters) && ProperBlock(r.value.data.body, features)
        && ValueIs(previousToken.value, L.End)
    {
      var fc := MakeFlowContext(features.labels);
      FlowPushScope(fc, false);
      var parameters :- ParseParameterList(fc);
      r := ParseFunctionBody(name, isLocal, parameters, fc);
    }

    /**
      The parameter list: `(`, then either `)` at once or parameters. Only a `...` parameter changes the flow
      context: it then allows `...` in the body.
    */
    method ParseParameterList(fc: FlowContext) returns (r: Result<seq<Node>, SyntaxError>)
      requires Ready(fc)
      modifies this, fc.Obj()
      decreases Measure(), 310
      ensures !ValueIs(old(token).value, L.LParen) ==> r == Failure(RaiseAt(old(token).value, Expected(L.LParen)))
      ensures r.Success? ==> Kept(0, 0) && Consumed() && ParameterList(r.value) && ValueIs(previousToken.value, L.RParen)
      ensures r.Success? ==> fc.Valid() && fc.Depth() == old(fc.Depth())
      ensures r.Success? ==>
        fc.AllowVararg() == (old(fc.AllowVararg()) || (|r.value| > 0 && r.value[|r.value| - 1].data.Literal?))
    {
      var step := Expect(L.LParen);
      if step.Fail? {
        return Failure(step.error);
      }
      r := ParseParameterTail(fc);
    }

    /** After `(`: an immediate `)`, or the parameters and then `)`. */
    method ParseParameterTail(fc: FlowContext) returns (r: Result<seq<Node>, SyntaxError>)
      requires Ready(fc)
      modifies this, fc.Obj()
      decreases Measure(), 308
      ensures r.Success? ==> Kept(0, 0) && Consumed() && ParameterList(r.value) && ValueIs(previousToken.value, L.RParen)
      ensures r.Success? ==> fc.Valid() && fc.Depth() == old(fc.Depth())
      ensures r.Success? ==>
        fc.AllowVararg() == (old(fc.AllowVararg()) || (|r.value| > 0 && r.value[|r.value| - 1].data.Literal?))
    {
      var closed :- Consume(L.RParen);
      if closed {
        return Success([]);
      }
      r := ParseParameters(fc);
    }

    /**
      The parameters after `(`, up to and including `)`: names separated by `,`, of which the last may instead
      be `...` (see `ParseParameter`).
    */
    method ParseParameters(fc: FlowContext) returns (r: Result<seq<Node>, SyntaxError>)
      requires Ready(fc)
      modifies this, fc.Obj()
      decreases Measure(), 305
      ensures !old(token).value.kind.Identifier? && !old(token).value.kind.VarargLiteral? ==>
        r == Failure(RaiseAt(old(token).value, ExpectedToken(L.ParameterExpected)))
      ensures r.Success? ==> Kept(0, 0) && Consumed() && ParameterList(r.value) && ValueIs(previousToken.value, L.RParen)
      ensures r.Success? ==> fc.Valid() && fc.Depth() == old(fc.Depth())
      ensures r.Success? ==>
        fc.AllowVararg() == (old(fc.AllowVararg()) || (|r.value| > 0 && r.value[|r.value| - 1].data.Literal?))
    {
      var parameters :- ParseParameterRun(fc);
      :- Expect(L.RParen);
      return Success(parameters);
    }

    /** The parameters up to the first one not followed by a comma; a vararg ends them. */
    method ParseParameterRun(fc: FlowContext) returns (r: Result<seq<Node>, SyntaxError>)
      requires Ready(fc)
      modifies this, fc.Obj()
      decreases Measure(), 304
      ensures !old(token).value.kind.Identifier? && !old(token).value.kind.VarargLiteral? ==>
        r == Failure(RaiseAt(old(token).value, ExpectedToken(L.ParameterExpected)))
      ensures r.Success? ==> Kept(0, 0) && Consumed() && ParameterList(r.value)
      ensures r.Success? ==> fc.Valid() && fc.Depth() == old(fc.Depth())
      ensures r.Success? ==>
        fc.AllowVararg() == (old(fc.AllowVararg()) || (|r.value| > 0 && r.value[|r.value| - 1].data.Literal?))
    {
      var parameters: seq<Node> := [];
      while true
        invariant Kept(0, 0) && fc.Valid() && fc.Depth() == old(fc.Depth()) && fc.AllowVararg() == old(fc.AllowVararg())
        invariant forall p <- parameters :: p.data.Identifier?
        invariant parameters == [] ==> token == old(token)
        invariant parameters != [] ==> Consumed() && (old(token).value.kind.Identifier? || old(token).value.kind.VarargLiteral?)
        decreases Measure()
      {
        var parameter :- ParseParameter(fc);
        parameters := parameters + [parameter.0];
        if !parameter.1 {
          break;
        }
      }
      return Success(parameters);
    }

    /**
      One parameter: a name, with whether a `,` follows it, or `...`, which is never followed by another; any
      other token raises `expected <name> or '...'`.
    */
    method ParseParameter(fc: FlowContext) returns (r: Result<(Node, bool), SyntaxError>)
      requires Ready(fc)
      modifies this, fc.Obj()
      decreases Measure(), 303
      ensures !old(token).value.kind.Identifier? && !old(token).value.kind.VarargLiteral? ==>
        r == Failure(RaiseAt(old(token).value, ExpectedToken(L.ParameterExpected)))
      ensures r.Success? ==> Kept(0, 0) && Consumed() && fc.Valid() && fc.Depth() == old(fc.Depth())
      ensures r.Success? ==>
        || (r.value.0.data.Identifier? && fc.AllowVararg() == old(fc.AllowVararg()))
        || (&& r.value.0.data.Literal? && r.value.0.data.kind == VarargLiteralNode
            && !r.value.1 && fc.AllowVararg())
    {
      var t := token.value;
      if t.kind.Identifier? {
        var parameter :- ParseDeclaredName();
        var more :- Consume(L.Comma);
        return Success((parameter, more));
      } else if t.kind.VarargLiteral? {
        var vararg :- ParseVarargParameter(fc);
        return Success((vararg, false));
      }
      return Failure(RaiseAt(t, ExpectedToken(L.ParameterExpected)));
    }

    /**
      A declared name (a parameter, a further `for` variable): `parseIdentifier`, then `scopeIdentifier` when
      scopes are tracked, which adds the name to the current scope and marks the identifier local.
    */
    method ParseDeclaredName() returns (r: Result<Node, SyntaxError>)
      requires Valid()
      modifies this
      ensures !old(token).value.kind.Identifier? ==>
        r == Failure(RaiseAt(old(token).value, ExpectedToken(L.NameExpected)))
      ensures r.Success? ==> Kept(0, 0) && Consumed() && globals == old(globals)
      ensures r.Success? ==>
        && old(token).value.kind.Identifier?
        && var name := old(token).value.value.text;
        && r.value.data == NodeData.Identifier(name, if options.scope then Some(true) else None)
        && scopes == if options.scope then old(scopes)[|old(scopes)| - 1 := AddName(old(scopes)[|old(scopes)| - 1], name)]
                     else old(scopes)
    {
      r := ParseIdentifier();
      if r.Success? && options.scope {
        var n := ScopeIdentifier(r.value);
        r := Success(n);
      }
    }

    /** The `...` parameter: the function allows `...` in its body, and the token is parsed as a primary expression. */
    method ParseVarargParameter(fc: FlowContext) returns (r: Result<Node, SyntaxError>)
      requires Ready(fc) && token.value.kind.VarargLiteral?
      modifies this, fc.Obj()
      decreases Measure(), 300
      ensures r.Success? ==> Kept(0, 0) && Consumed() && fc.Valid() && fc.Depth() == old(fc.Depth()) && fc.AllowVararg()
      ensures r.Success? ==> r.value.data.Literal? && r.value.data.kind == VarargLiteralNode
    {
      FlowAllowVararg(fc);
      var vararg :- ParsePrimaryExpression(fc);
      return Success(vararg.value);
    }

    /**
      A function's body: the block, the function's flow scope closed (raising the gotos it leaves unresolved),
      `end`, the scope its caller opened closed when scopes are tracked, and the declaration node.
    */
    method ParseFunctionBody(name: Option<Node>, isLocal: bool, parameters: seq<Node>, fc: FlowContext)
      returns (r: Result<Node, SyntaxError>)
      requires Ready(fc) && (options.scope ==> |scopes| >= 2) && (trackLocations ==> |locations| >= 1)
      modifies this, fc.Obj()
      decreases Measure(), 400
      ensures r.Success? ==> Kept(1, if options.scope then -1 else 0) && Consumed()
      ensures r.Success? ==>
        && r.value.data.FunctionDeclaration?
        && r.value.data == FunctionDeclaration(name, isLocal, parameters, r.value.data.body)
        && ProperBlock(r.value.data.body, features) && ValueIs(previousToken.value, L.End)
    {
      var body :- ParseBlock(fc);
      :- FlowPopScope(fc);
      r := CloseScopedNode(FunctionDeclaration(name, isLocal, parameters, body));
    }

    // ---------------------------------------------------------------------------------------------------
    // Blocks and statements

    /**
      `parseBlock`: statements up to a token that follows a block. A statement starting at `return`, or at
      `break` unless the dialect relaxes it, is taken last; after any other statement one `;` is skipped,
      and an empty statement adds nothing.
    */
    method ParseBlock(fc: FlowContext) returns (r: Result<seq<Node>, SyntaxError>)
      requires Ready(fc)
      modifies this, fc.Obj()
      decreases Measure(), 390
      ensures r.Success? ==> Kept(0, 0) && FlowKept(fc) && ProperBlock(r.value, features)
      ensures r.Success? ==>
        IsBlockFollow(token.value) || (|r.value| > 0 && Terminal(r.value[|r.value| - 1], features))
    {
      var block: seq<Node> := [];
      while !IsBlockFollow(token.value)
        invariant Kept(0, 0) && FlowKept(fc)
        invariant forall s <- block :: !Terminal(s, features)
        decreases Measure()
      {
        var last := ValueIs(token.value, L.Return) || (!features.relaxedBreak && ValueIs(token.value, L.Break));
        var statement :- ParseBlockStatement(last, fc);
        if last {
          block := block + [statement.value];
          break;
        }
        if statement.Some? {
          block := block + [statement.value];
        }
      }
      return Success(block);
    }

    /**
      One turn of the loop of `parseBlock`: a statement, then, unless it is `last` (it starts at `return` or
      at a strict `break`), one optional `;`. Only a `last` statement is one that must end its block.
    */
    method ParseBlockStatement(last: bool, fc: FlowContext) returns (r: Result<Option<Node>, SyntaxError>)
      requires Ready(fc)
      requires last == (ValueIs(token.value, L.Return) || (!features.relaxedBreak && ValueIs(token.value, L.Break)))
      modifies this, fc.Obj()
      decreases Measure(), 380
      ensures r.Success? ==> Kept(0, 0) && FlowKept(fc) && Consumed()
      ensures r.Success? && last ==> r.value.Some? && Terminal(r.value.value, features)
      ensures r.Success? && !last && r.value.Some? ==> !Terminal(r.value.value, features)
    {
      var t := token.value;
      ghost var la := lookahead.value;
      var statement :- ParseStatement(fc);
      if last {
        EndingStatement(t, la, features, statement.value);
        return Success(statement);
      }
      var semicolon :- Consume(L.Semicolon);
      if statement.Some? && Terminal(statement.value, features) {
        TerminalDispatch(t, la, features, statement.value);
        assert false;
      }
      return Success(statement);
    }

    /**
      `parseStatement`: the dispatch on the current token (see `Dispatch`), from a marker at the statement's
      first token. Deferred goto errors of the current flow scope are raised before any statement other than
      a label or an empty statement; a `break` outside every loop raises `noLoopToBreak`; a token that starts
      no statement and no prefix expression raises `unexpected`.
    */
    method ParseStatement(fc: FlowContext) returns (r: Result<Option<Node>, SyntaxError>)
      requires Ready(fc)
      modifies this, fc.Obj()
      decreases Measure(), 370
      ensures r.Success? ==> Kept(0, 0) && FlowKept(fc) && Consumed()
      ensures r.Success? ==>
        var form := Dispatch(old(token).value, old(lookahead).value, features);
        && (r.value.None? <==> form == EmptyForm)
        && (r.value.Some? ==> Produces(form, r.value.value))
      ensures Dispatch(old(token).value, old(lookahead).value, features) == BreakForm && !old(fc.InLoop()) ==>
        r.Failure?
      ensures (Dispatch(old(token).value, old(lookahead).value, features) == AssignmentOrCallForm
        && !StartsPrefix(old(token).value)) ==> r.Failure?
    {
      MarkLocation();
      r := ParseMarkedStatement(fc);
    }

    /** The statement after its marker is pushed: a label, an empty statement, or any other statement. */
    method ParseMarkedStatement(fc: FlowContext) returns (r: Result<Option<Node>, SyntaxError>)
      requires Ready(fc) && (trackLocations ==> |locations| >= 1)
      modifies this, fc.Obj()
      decreases Measure(), 360
      ensures r.Success? ==> Kept(1, 0) && FlowKept(fc) && Consumed()
      ensures r.Success? ==>
        var form := Dispatch(old(token).value, old(lookahead).value, features);
        && (r.value.None? <==> form == EmptyForm)
        && (r.value.Some? ==> Produces(form, r.value.value))
      ensures Dispatch(old(token).value, old(lookahead).value, features) == BreakForm && !old(fc.InLoop()) ==>
        r.Failure?
      ensures (Dispatch(old(token).value, old(lookahead).value, features) == AssignmentOrCallForm
        && !StartsPrefix(old(token).value)) ==> r.Failure?
    {
      var t := token.value;
      if t.kind.Punctuator? && ValueIs(t, L.DoubleColon) {
        :- NextLex();
        var n :- ParseLabelStatement(fc);
        return Success(Some(n));
      }
      if features.emptyStatement && ValueIs(t, L.Semicolon) {
        r := SkipEmptyStatement();
        return;
      }
      :- FlowRaiseDeferredErrors(fc);
      var n :- ParseOtherStatement(fc);
      return Success(Some(n));
    }

    /** An empty statement: the `;` is taken and the statement's marker dropped. */
    method SkipEmptyStatement() returns (r: Result<Option<Node>, SyntaxError>)
      requires Valid() && ValueIs(token.value, L.Semicolon) && (trackLocations ==> |locations| >= 1)
      modifies this
      ensures r.Success? ==> Kept(1, 0) && Consumed() && r.value.None?
    {
      var step := NextLex();
      if step.Fail? {
        return Failure(step.error);
      }
      if trackLocations {
        locations := locations[..|locations| - 1];
      }
      return Success(None);
    }

    /**
      A statement that is neither a label nor an empty statement: a statement keyword (or a contextual
      `goto`) is taken and its statement parsed; anything else is an assignment or a call, which places its
      own markers, so the statement's marker is dropped first.
    */
    method ParseOtherStatement(fc: FlowContext) returns (r: Result<Node, SyntaxError>)
      requires Ready(fc) && (trackLocations ==> |locations| >= 1)
      requires !(token.value.kind.Punctuator? && ValueIs(token.value, L.DoubleColon))
      requires !(features.emptyStatement && ValueIs(token.value, L.Semicolon))
      modifies this, fc.Obj()
      decreases Measure(), 350
      ensures r.Success? ==> Kept(1, 0) && FlowKept(fc) && Consumed()
      ensures r.Success? ==> Produces(Dispatch(old(token).value, old(lookahead).value, features), r.value)
      ensures Dispatch(old(token).value, old(lookahead).value, features) == BreakForm && !old(fc.InLoop()) ==>
        r.Failure?
      ensures (Dispatch(old(token).value, old(lookahead).value, features) == AssignmentOrCallForm
        && !StartsPrefix(old(token).value)) ==> r.Failure?
    {
      var form := Dispatch(token.value, lookahead.value, features);
      if form == AssignmentOrCallForm {
        if trackLocations {
          locations := locations[..|locations| - 1];
        }
        r := ParseAssignmentOrCallStatement(fc);
        return;
      }
      :- NextLex();
      r := ParseKeywordStatement(form, fc);
    }

    /** The statement a keyword starts, after the keyword: `local`, `if`, `return`, `function`, or a loop or jump. */
    method ParseKeywordStatement(form: StatementForm, fc: FlowContext) returns (r: Result<Node, SyntaxError>)
      requires Ready(fc) && previousToken.Some? && (trackLocations ==> |locations| >= 1)
      requires form !in {LabelForm, EmptyForm, AssignmentOrCallForm}
      requires form == GotoForm ==> fc.Full?
      modifies this, fc.Obj()
      decreases Measure(), 500
      ensures r.Success? ==> Kept(1, 0) && FlowKept(fc) && Produces(form, r.value)
      ensures form == BreakForm && !old(fc.InLoop()) ==> r.Failure?
      ensures form == BreakForm && old(fc.InLoop()) ==> r.Success?
    {
      if form == LocalForm {
        r := ParseLocalStatement(fc);
      } else if form == IfForm {
        r := ParseIfStatement(fc);
      } else if form == ReturnForm {
        r := ParseReturnStatement(fc);
      } else if form == FunctionForm {
        r := ParseFunctionStatement();
      } else {
        r := ParseLoopStatement(form, fc);
      }
    }

    /** The statements `while`, `for` and `repeat` start, after the keyword, or else `do`, `break` or `goto`. */
    method ParseLoopStatement(form: StatementForm, fc: FlowContext) returns (r: Result<Node, SyntaxError>)
      requires Ready(fc) && previousToken.Some? && (trackLocations ==> |locations| >= 1)
      requires form in {WhileForm, ForForm, RepeatForm, BreakForm, DoForm, GotoForm}
      requires form == GotoForm ==> fc.Full?
      modifies this, fc.Obj()
      decreases Measure(), 490
      ensures r.Success? ==> Kept(1, 0) && FlowKept(fc) && Produces(form, r.value)
      ensures form == BreakForm && !old(fc.InLoop()) ==> r.Failure?
      ensures form == BreakForm && old(fc.InLoop()) ==> r.Success?
    {
      if form == WhileForm {
        r := ParseWhileStatement(fc);
      } else if form == ForForm {
        r := ParseForStatement(fc);
      } else if form == RepeatForm {
        r := ParseRepeatStatement(fc);
      } else {
        r := ParseDoOrJumpStatement(form, fc);
      }
    }

    /**
      `do`, `break` or `goto`, after the keyword. `break` is `parseBreakStatement` once the flow context has
      confirmed a loop; outside every loop it raises `noLoopToBreak` at the token after `break`.
    */
    method ParseDoOrJumpStatement(form: StatementForm, fc: FlowContext) returns (r: Result<Node, SyntaxError>)
      requires Ready(fc) && previousToken.Some? && (trackLocations ==> |locations| >= 1)
      requires form in {BreakForm, DoForm, GotoForm}
      requires form == GotoForm ==> fc.Full?
      modifies this, fc.Obj()
      decreases Measure(), 480
      ensures r.Success? ==> Kept(1, 0) && FlowKept(fc) && Produces(form, r.value)
      ensures form == BreakForm && !old(fc.InLoop()) ==> r == Failure(RaiseAt(old(token).value, NoLoopToBreak))
      ensures form == BreakForm && old(fc.InLoop()) ==> r.Success? && r.value.data == BreakStatement
    {
      if form == DoForm {
        r := ParseDoStatement(None, fc);
      } else if form == BreakForm {
        var inLoop := FlowIsInLoop(fc);
        if !inLoop {
          return Failure(RaiseAt(token.value, NoLoopToBreak));
        }
        var n := FinishNode(BreakStatement);
        r := Success(n);
      } else {
        r := ParseGotoStatement(fc);
      }
    }

    /**
      `parseLabelStatement`, after `::`: the label name, the closing `::`, and the label added to the flow
      context.
    */
    method ParseLabelStatement(fc: FlowContext) returns (r: Result<Node, SyntaxError>)
      requires Ready(fc) && fc.Full? && (trackLocations ==> |locations| >= 1)
      modifies this, fc.Obj()
      ensures !old(token).value.kind.Identifier? ==>
        r == Failure(RaiseAt(old(token).value, ExpectedToken(L.NameExpected)))
      ensures r.Success? ==> Kept(1, 0) && FlowKept(fc) && Consumed()
      ensures r.Success? ==>
        r.value.data.LabelStatement? && r.value.data.labelName.data.Identifier?
        && r.value.data.labelName.data.name == old(token).value.value.text
    {
      var nameToken := token.value;
      var labelName :- ParseLabelHead();
      r := FinishLabel(labelName, nameToken, fc);
    }

    /** The label name and the closing `::`. */
    method ParseLabelHead() returns (r: Result<Node, SyntaxError>)
      requires Valid()
      modifies this
      ensures !old(token).value.kind.Identifier? ==>
        r == Failure(RaiseAt(old(token).value, ExpectedToken(L.NameExpected)))
      ensures r.Success? ==> Kept(0, 0) && Consumed()
      ensures r.Success? ==>
        && old(token).value.kind.Identifier? && r.value.data.Identifier?
        && r.value.data.name == old(token).value.value.text
    {
      r := ParseLabelName();
      if r.Success? {
        :- Expect(L.DoubleColon);
      }
    }

    /** The label, read at `nameToken`, is added to the flow context and its statement node finished. */
    method FinishLabel(labelName: Node, nameToken: Token, fc: FlowContext) returns (r: Result<Node, SyntaxError>)
      requires Valid() && fc.Valid() && fc.Full? && fc.Depth() > 0 && nameToken.value.Text?
      modifies this`locations, fc.Obj()
      ensures r.Success? ==> Valid() && locations == Dropped(old(locations), 1) && FlowKept(fc)
      ensures r.Success? ==> r.value.data == LabelStatement(labelName)
    {
      var step := fc.full.AddLabel(nameToken.value.text, nameToken);
      if step.Fail? {
        return Failure(step.error);
      }
      var n := FinishNode(LabelStatement(labelName));
      return Success(n);
    }

    /**
      The name of a label: `parseIdentifier`; when scopes are tracked `::name::` joins the current scope and
      the identifier is marked local.
    */
    method ParseLabelName() returns (r: Result<Node, SyntaxError>)
      requires Valid()
      modifies this
      ensures !old(token).value.kind.Identifier? ==>
        r == Failure(RaiseAt(old(token).value, ExpectedToken(L.NameExpected)))
      ensures r.Success? ==> Kept(0, 0) && Consumed()
      ensures r.Success? ==>
        && old(token).value.kind.Identifier?
        && var name := old(token).value.value.text;
        && r.value.data == NodeData.Identifier(name, if options.scope then Some(true) else None)
        && (options.scope ==> L.DoubleColon + name + L.DoubleColon in scopes[|scopes| - 1])
    {
      var nameToken := token.value;
      r := ParseIdentifier();
      if r.Success? && options.scope {
        ScopeIdentifierName(L.DoubleColon + nameToken.value.text + L.DoubleColon);
        var n := AttachScope(r.value, true);
        r := Success(n);
      }
    }

    /** `parseGotoStatement`, after `goto`: the label name, recorded as a goto of the flow context. */
    method ParseGotoStatement(fc: FlowContext) returns (r: Result<Node, SyntaxError>)
      requires Ready(fc) && fc.Full? && previousToken.Some? && (trackLocations ==> |locations| >= 1)
      modifies this, fc.Obj()
      ensures !old(token).value.kind.Identifier? ==>
        r == Failure(RaiseAt(old(token).value, ExpectedToken(L.NameExpected)))
      ensures r.Success? ==> Kept(1, 0) && FlowKept(fc) && Consumed()
      ensures r.Success? ==>
        r.value.data.GotoStatement? && r.value.data.labelName.data.Identifier?
        && r.value.data.labelName.data.name == old(token).value.value.text
    {
      var gotoToken := previousToken.value;
      var labelName :- ParseIdentifier();
      fc.full.AddGoto(labelName.data.name, gotoToken);
      var n := FinishNode(GotoStatement(labelName));
      return Success(n);
    }

    /**
      The block of `do`, `while` and each `if` clause: a new scope when scopes are tracked and a new flow
      scope (a loop's for `while`) around it.
    */
    method ParseScopedBlock(fc: FlowContext, isLoop: bool) returns (r: Result<seq<Node>, SyntaxError>)
      requires Ready(fc)
      modifies this, fc.Obj()
      decreases Measure(), 400
      ensures r.Success? ==> Kept(0, 0) && FlowKept(fc) && ProperBlock(r.value, features)
    {
      OpenScope(fc, isLoop);
      var body :- ParseBlock(fc);
      :- CloseScope(fc);
      return Success(body);
    }

    /**
      The block of `do` (no condition) or of `while` (its condition): a new scope when scopes are tracked and
      a new flow scope, a loop's for `while`, around it, then `end`.
    */
    method ParseDoStatement(condition: Option<Node>, fc: FlowContext) returns (r: Result<Node, SyntaxError>)
      requires Ready(fc) && previousToken.Some? && (trackLocations ==> |locations| >= 1)
      modifies this, fc.Obj()
      decreases Measure(), 465
      ensures r.Success? ==> Kept(1, 0) && FlowKept(fc) && Consumed() && ValueIs(previousToken.value, L.End)
      ensures r.Success? ==>
        && (if condition.Some? then r.value.data.WhileStatement? && r.value.data.condition == condition.value
            else r.value.data.DoStatement?)
        && ProperBlock(r.value.data.body, features)
    {
      var body :- ParseScopedBlock(fc, condition.Some?);
      r := ExpectAndFinish(L.End, if condition.Some? then WhileStatement(condition.value, body) else DoStatement(body));
    }

    /** `parseWhileStatement`, after `while`: the condition, `do`, then the block as for `do`. */
    method ParseWhileStatement(fc: FlowContext) returns (r: Result<Node, SyntaxError>)
      requires Ready(fc) && previousToken.Some? && (trackLocations ==> |locations| >= 1)
      modifies this, fc.Obj()
      decreases Measure(), 470
      ensures !StartsExpression(old(token).value) ==>
        r == Failure(RaiseAt(old(token).value, ExpectedToken(L.ExpressionExpected)))
      ensures r.Success? ==> Kept(1, 0) && FlowKept(fc) && Consumed()
      ensures r.Success? ==>
        r.value.data.WhileStatement? && ProperBlock(r.value.data.body, features) && ValueIs(previousToken.value, L.End)
    {
      var condition :- ParseExpectedExpression(fc);
      :- Expect(L.Do);
      r := ParseDoStatement(Some(condition), fc);
    }

    /**
      `parseRepeatStatement`, after `repeat`: a loop body in a new scope, then `until` and the condition
      (see `ParseUntil`).
    */
    method ParseRepeatStatement(fc: FlowContext) returns (r: Result<Node, SyntaxError>)
      requires Ready(fc) && previousToken.Some? && (trackLocations ==> |locations| >= 1)
      modifies this, fc.Obj()
      decreases Measure(), 470
      ensures r.Success? ==> Kept(1, 0) && FlowKept(fc) && Consumed()
      ensures r.Success? ==> r.value.data.RepeatStatement? && ProperBlock(r.value.data.body, features)
    {
      OpenScope(fc, true);
      var body :- ParseBlock(fc);
      r := ParseUntil(body, fc);
    }

    /**
      `until` and the condition of a `repeat`, which still sees the body's scopes; deferred goto errors of
      the body are raised before the condition, and the scopes are closed after it.
    */
    method ParseUntil(body: seq<Node>, fc: FlowContext) returns (r: Result<Node, SyntaxError>)
      requires Ready(fc) && fc.Depth() > 1 && (options.scope ==> |scopes| >= 2) && (trackLocations ==> |locations| >= 1)
      modifies this, fc.Obj()
      decreases Measure(), 460
      ensures !ValueIs(old(token).value, L.Until) ==> r == Failure(RaiseAt(old(token).value, Expected(L.Until)))
      ensures r.Success? ==> Kept(1, if options.scope then -1 else 0) && Consumed()
      ensures r.Success? ==>
        fc.Valid() && fc.Depth() == old(fc.Depth()) - 1 && fc.AllowVararg() == old(fc.AllowVararg())
      ensures r.Success? ==> r.value.data.RepeatStatement? && r.value.data.body == body
    {
      var step := Expect(L.Until);
      if step.Fail? {
        return Failure(step.error);
      }
      :- FlowRaiseDeferredErrors(fc);
      r := ParseRepeatCondition(body, fc);
    }

    /** The condition of a `repeat`, inside the body's scopes, which are closed after it. */
    method ParseRepeatCondition(body: seq<Node>, fc: FlowContext) returns (r: Result<Node, SyntaxError>)
      requires Ready(fc) && fc.Depth() > 1 && (options.scope ==> |scopes| >= 2) && (trackLocations ==> |locations| >= 1)
      modifies this, fc.Obj()
      decreases Measure(), 455
      ensures r.Success? ==> Kept(1, if options.scope then -1 else 0)
      ensures r.Success? ==>
        fc.Valid() && fc.Depth() == old(fc.Depth()) - 1 && fc.AllowVararg() == old(fc.AllowVararg())
      ensures r.Success? ==> r.value.data.RepeatStatement? && r.value.data.body == body
    {
      var condition := ParseExpectedExpression(fc);
      if condition.Failure? {
        return Failure(condition.error);
      }
      r := FinishRepeat(condition.value, body, fc);
    }

    /** The scopes of a `repeat` are closed after its condition, and the statement node finished. */
    method FinishRepeat(condition: Node, body: seq<Node>, fc: FlowContext) returns (r: Result<Node, SyntaxError>)
      requires Valid() && fc.Valid() && fc.Depth() > 0 && (options.scope ==> |scopes| >= 2)
      modifies this, fc.Obj()
      ensures r.Success? ==>
        && Valid() && |scopes| == |old(scopes)| - (if options.scope then 1 else 0)
        && locations == Dropped(old(locations), 1)
        && Measure() == old(Measure()) && previousToken == old(previousToken)
      ensures r.Success? ==>
        fc.Valid() && fc.Depth() == old(fc.Depth()) - 1 && fc.AllowVararg() == old(fc.AllowVararg())
      ensures r.Success? ==> r.value.data == RepeatStatement(condition, body)
    {
      var step := CloseScope(fc);
      if step.Fail? {
        return Failure(step.error);
      }
      var n := FinishNode(RepeatStatement(condition, body));
      return Success(n);
    }

    /**
      `parseReturnStatement`, after `return`: unless the token has the value `end`, the values (see
      `ParseReturnValues`).
    */
    method ParseReturnStatement(fc: FlowContext) returns (r: Result<Node, SyntaxError>)
      requires Ready(fc) && previousToken.Some? && (trackLocations ==> |locations| >= 1)
      modifies this, fc.Obj()
      decreases Measure(), 470
      ensures r.Success? ==> Kept(1, 0) && FlowKept(fc) && r.value.data.ReturnStatement?
      ensures ValueIs(old(token).value, L.End) ==>
        r.Success? && r.value.data.arguments == [] && token == old(token)
    {
      var values: seq<Node> := [];
      if !ValueIs(token.value, L.End) {
        values :- ParseReturnValues(fc);
      }
      var n := FinishNode(ReturnStatement(values));
      return Success(n);
    }

    /**
      The values of a `return`: an optional first expression, then the `,`-separated rest (a `,` right after
      `return` is taken like any other, so `return , x` returns `x`), and an optional `;`.
    */
    method ParseReturnValues(fc: FlowContext) returns (r: Result<seq<Node>, SyntaxError>)
      requires Ready(fc)
      modifies this, fc.Obj()
      decreases Measure(), 465
      ensures r.Success? ==> Kept(0, 0) && FlowKept(fc)
      ensures r.Success? && StartsExpression(old(token).value) ==> |r.value| >= 1
    {
      var first :- ParseExpression(fc);
      var values :- ParseExpressionListTail(if first.Some? then [first.value] else [], fc);
      var semicolon :- Consume(L.Semicolon);
      return Success(values);
    }

    /**
      `parseIfStatement`, after `if`: the `if` clause starts where the statement starts (its marker is the
      statement's, pushed again), each `elseif` clause where its keyword stands, the `else` clause at the
      `else` token; `end` closes the statement.
    */
    method ParseIfStatement(fc: FlowContext) returns (r: Result<Node, SyntaxError>)
      requires Ready(fc) && previousToken.Some? && (trackLocations ==> |locations| >= 1)
      modifies this, fc.Obj()
      decreases Measure(), 470
      ensures !StartsExpression(old(token).value) ==>
        r == Failure(RaiseAt(old(token).value, ExpectedToken(L.ExpressionExpected)))
      ensures r.Success? ==> Kept(1, 0) && FlowKept(fc) && Consumed()
      ensures r.Success? ==>
        && r.value.data.IfStatement? && IfClauses(r.value.data.clauses)
        && (forall c <- r.value.data.clauses :: ProperBlock(c.data.body, features))
        && ValueIs(previousToken.value, L.End)
    {
      if trackLocations {
        locations := locations + [locations[|locations| - 1]];
      }
      var clause :- ParseConditionalClause(false, fc);
      var clauses :- ParseElseifClauses([clause], fc);
      r := ParseIfEnd(clauses, fc);
    }

    /**
      A condition, `then` and a scoped block: the `if` clause, or an `elseif` clause when `elseif`. It pops
      the marker its caller pushed for the clause.
    */
    method ParseConditionalClause(elseif: bool, fc: FlowContext) returns (r: Result<Node, SyntaxError>)
      requires Ready(fc) && (trackLocations ==> |locations| >= 1)
      modifies this, fc.Obj()
      decreases Measure(), 460
      ensures !StartsExpression(old(token).value) ==>
        r == Failure(RaiseAt(old(token).value, ExpectedToken(L.ExpressionExpected)))
      ensures r.Success? ==> Kept(1, 0) && FlowKept(fc) && Consumed()
      ensures r.Success? ==>
        && (if elseif then r.value.data.ElseifClause? else r.value.data.IfClause?)
        && ProperBlock(r.value.data.body, features)
    {
      var parts :- ParseClauseParts(fc);
      var n := FinishNode(if elseif then ElseifClause(parts.0, parts.1) else IfClause(parts.0, parts.1));
      return Success(n);
    }

    /** The condition of a clause, then `then` and the block. */
    method ParseClauseParts(fc: FlowContext) returns (r: Result<(Node, seq<Node>), SyntaxError>)
      requires Ready(fc)
      modifies this, fc.Obj()
      decreases Measure(), 458
      ensures !StartsExpression(old(token).value) ==>
        r == Failure(RaiseAt(old(token).value, ExpectedToken(L.ExpressionExpected)))
      ensures r.Success? ==> Kept(0, 0) && FlowKept(fc) && Consumed() && ProperBlock(r.value.1, features)
    {
      var condition :- ParseExpectedExpression(fc);
      var body :- ParseThenBlock(fc);
      return Success((condition, body));
    }

    /** `then` and the scoped block of a clause. */
    method ParseThenBlock(fc: FlowContext) returns (r: Result<seq<Node>, SyntaxError>)
      requires Ready(fc)
      modifies this, fc.Obj()
      decreases Measure(), 455
      ensures !ValueIs(old(token).value, L.Then) ==> r == Failure(RaiseAt(old(token).value, Expected(L.Then)))
      ensures r.Success? ==> Kept(0, 0) && FlowKept(fc) && ProperBlock(r.value, features)
    {
      var step := Expect(L.Then);
      if step.Fail? {
        return Failure(step.error);
      }
      r := ParseScopedBlock(fc, false);
    }

    /** The `elseif` clauses after the clauses so far, each located at its `elseif` keyword. */
    method ParseElseifClauses(clauses: seq<Node>, fc: FlowContext) returns (r: Result<seq<Node>, SyntaxError>)
      requires Ready(fc) && OpenIfClauses(clauses, features)
      modifies this, fc.Obj()
      decreases Measure(), 450
      ensures r.Success? ==> Kept(0, 0) && FlowKept(fc) && OpenIfClauses(r.value, features)
      ensures r.Success? ==> |r.value| >= |clauses| && r.value[..|clauses|] == clauses
    {
      var cs := clauses;
      while ValueIs(token.value, L.ElseIf)
        invariant Kept(0, 0) && FlowKept(fc) && OpenIfClauses(cs, features)
        invariant |cs| >= |clauses| && cs[..|clauses|] == clauses
        decreases Measure()
      {
        var clause :- ParseElseifClause(fc);
        cs := cs + [clause];
      }
      return Success(cs);
    }

    /** One `elseif` clause, at its keyword, located from it. */
    method ParseElseifClause(fc: FlowContext) returns (r: Result<Node, SyntaxError>)
      requires Ready(fc) && ValueIs(token.value, L.ElseIf)
      modifies this, fc.Obj()
      decreases Measure(), 445
      ensures r.Success? ==> Kept(0, 0) && FlowKept(fc) && Consumed()
      ensures r.Success? ==> r.value.data.ElseifClause? && ProperBlock(r.value.data.body, features)
    {
      var step := PushAndTake(TokenMarker());
      if step.Fail? {
        return Failure(step.error);
      }
      r := ParseConditionalClause(true, fc);
    }

    /** An optional `else` clause, then `end` and the statement node, which pops the statement's marker. */
    method ParseIfEnd(clauses: seq<Node>, fc: FlowContext) returns (r: Result<Node, SyntaxError>)
      requires Ready(fc) && OpenIfClauses(clauses, features) && (trackLocations ==> |locations| >= 1)
      modifies this, fc.Obj()
      decreases Measure(), 440
      ensures r.Success? ==> Kept(1, 0) && FlowKept(fc) && Consumed()
      ensures r.Success? ==>
        && r.value.data.IfStatement? && IfClauses(r.value.data.clauses)
        && (forall c <- r.value.data.clauses :: ProperBlock(c.data.body, features))
        && |r.value.data.clauses| >= |clauses| && r.value.data.clauses[..|clauses|] == clauses
        && ValueIs(previousToken.value, L.End)
    {
      var cs := clauses;
      var hasElse :- Consume(L.Else);
      if hasElse {
        var clause :- ParseElseClause(fc);
        cs := cs + [clause];
      }
      r := ExpectAndFinish(L.End, IfStatement(cs));
    }

    /** After `else`: the clause is located from the `else` token, and its body is a scoped block. */
    method ParseElseClause(fc: FlowContext) returns (r: Result<Node, SyntaxError>)
      requires Ready(fc) && previousToken.Some?
      modifies this, fc.Obj()
      decreases Measure(), 430
      ensures r.Success? ==> Kept(0, 0) && FlowKept(fc)
      ensures r.Success? ==> r.value.data.ElseClause? && ProperBlock(r.value.data.body, features)
    {
      if trackLocations {
        locations := locations + [NewMarker(previousToken.value, options.locations, options.ranges)];
      }
      var body :- ParseScopedBlock(fc, false);
      var n := FinishNode(ElseClause(body));
      return Success(n);
    }

    /**
      `parseForStatement`, after `for`: the first name, then a numeric loop when the next token has the value
      `=` and a generic loop otherwise. The loop variables are declared in a scope that encloses the body.
    */
    method ParseForStatement(fc: FlowContext) returns (r: Result<Node, SyntaxError>)
      requires Ready(fc) && previousToken.Some? && (trackLocations ==> |locations| >= 1)
      modifies this, fc.Obj()
      decreases Measure(), 470
      ensures !old(token).value.kind.Identifier? ==>
        r == Failure(RaiseAt(old(token).value, ExpectedToken(L.NameExpected)))
      ensures r.Success? ==> Kept(1, 0) && FlowKept(fc) && Consumed() && ValueIs(previousToken.value, L.End)
      ensures r.Success? ==>
        (r.value.data.ForNumericStatement? <==> ValueIs(old(lookahead).value, L.Assign))
        && (r.value.data.ForGenericStatement? <==> !ValueIs(old(lookahead).value, L.Assign))
      ensures r.Success? && r.value.data.ForNumericStatement? ==>
        r.value.data.variable.data.Identifier? && ProperBlock(r.value.data.body, features)
      ensures r.Success? && r.value.data.ForGenericStatement? ==>
        && |r.value.data.variables| >= 1 && |r.value.data.iterators| >= 1
        && (forall v <- r.value.data.variables :: v.data.Identifier?)
        && ProperBlock(r.value.data.body, features)
    {
      var variable :- ParseForVariable();
      var numeric :- Consume(L.Assign);
      if numeric {
        r := ParseForNumeric(variable, fc);
      } else {
        r := ParseForGeneric(variable, fc);
      }
    }

    /** The first name of a `for`: when scopes are tracked a scope for the loop is opened and the name declared in it. */
    method ParseForVariable() returns (r: Result<Node, SyntaxError>)
      requires Valid()
      modifies this
      ensures !old(token).value.kind.Identifier? ==>
        r == Failure(RaiseAt(old(token).value, ExpectedToken(L.NameExpected)))
      ensures r.Success? ==> Kept(0, if options.scope then 1 else 0) && Consumed() && token == old(lookahead)
      ensures r.Success? ==>
        && old(token).value.kind.Identifier?
        && r.value.data == NodeData.Identifier(old(token).value.value.text, if options.scope then Some(true) else None)
        && (options.scope ==> old(token).value.value.text in scopes[|scopes| - 1])
    {
      var variable :- ParseIdentifier();
      if options.scope {
        CreateScope();
        variable := ScopeIdentifier(variable);
      }
      return Success(variable);
    }

    /** A numeric `for` after `=`: the bounds, the loop body and `end`; the loop's scope is closed. */
    method ParseForNumeric(variable: Node, fc: FlowContext) returns (r: Result<Node, SyntaxError>)
      requires Ready(fc) && previousToken.Some? && variable.data.Identifier?
      requires (options.scope ==> |scopes| >= 2) && (trackLocations ==> |locations| >= 1)
      modifies this, fc.Obj()
      decreases Measure(), 460
      ensures r.Success? ==>
        Kept(1, if options.scope then -1 else 0) && FlowKept(fc) && Consumed() && ValueIs(previousToken.value, L.End)
      ensures r.Success? ==>
        && r.value.data.ForNumericStatement? && r.value.data.variable == variable
        && ProperBlock(r.value.data.body, features)
    {
      var bounds :- ParseNumericBounds(fc);
      var body :- ParseLoopBody(fc);
      r := CloseScopedNode(ForNumericStatement(variable, bounds.0, bounds.1, bounds.2, body));
    }

    /** The bounds of a numeric `for`: start, `,`, limit, and an optional step. */
    method ParseNumericBounds(fc: FlowContext) returns (r: Result<(Node, Node, Option<Node>), SyntaxError>)
      requires Ready(fc)
      modifies this, fc.Obj()
      decreases Measure(), 455
      ensures !StartsExpression(old(token).value) ==>
        r == Failure(RaiseAt(old(token).value, ExpectedToken(L.ExpressionExpected)))
      ensures r.Success? ==> Kept(0, 0) && FlowKept(fc) && Consumed()
    {
      var start :- ParseExpectedExpression(fc);
      :- Expect(L.Comma);
      var limit :- ParseExpectedExpression(fc);
      var step :- ParseOptionalStep(fc);
      return Success((start, limit, step));
    }

    /** `, step` of a numeric `for`, when the token has the value `,`. */
    method ParseOptionalStep(fc: FlowContext) returns (r: Result<Option<Node>, SyntaxError>)
      requires Ready(fc)
      modifies this, fc.Obj()
      decreases Measure(), 450
      ensures !ValueIs(old(token).value, L.Comma) ==> r == Success(None) && unchanged(this) && unchanged(fc.Obj())
      ensures r.Success? ==> Kept(0, 0) && FlowKept(fc)
      ensures r.Success? && ValueIs(old(token).value, L.Comma) ==> r.value.Some? && Consumed()
    {
      var hasStep :- Consume(L.Comma);
      if !hasStep {
        return Success(None);
      }
      var step :- ParseExpectedExpression(fc);
      return Success(Some(step));
    }

    /** A generic `for`: the further names and `in`, the iterator expressions, the loop body and `end`. */
    method ParseForGeneric(variable: Node, fc: FlowContext) returns (r: Result<Node, SyntaxError>)
      requires Ready(fc) && previousToken.Some? && variable.data.Identifier?
      requires (options.scope ==> |scopes| >= 2) && (trackLocations ==> |locations| >= 1)
      modifies this, fc.Obj()
      decreases Measure(), 460
      ensures r.Success? ==>
        Kept(1, if options.scope then -1 else 0) && FlowKept(fc) && Consumed() && ValueIs(previousToken.value, L.End)
      ensures r.Success? ==>
        && r.value.data.ForGenericStatement?
        && |r.value.data.variables| >= 1 && r.value.data.variables[0] == variable && |r.value.data.iterators| >= 1
        && (forall v <- r.value.data.variables :: v.data.Identifier?)
        && ProperBlock(r.value.data.body, features)
    {
      var head :- ParseForIn(variable, fc);
      var body :- ParseLoopBody(fc);
      r := CloseScopedNode(ForGenericStatement(head.0, head.1, body));
    }

    /** The names of a generic `for` up to `in`, then the iterator expressions. */
    method ParseForIn(variable: Node, fc: FlowContext) returns (r: Result<(seq<Node>, seq<Node>), SyntaxError>)
      requires Ready(fc) && variable.data.Identifier?
      modifies this, fc.Obj()
      decreases Measure(), 455
      ensures r.Success? ==> Kept(0, 0) && FlowKept(fc) && Consumed()
      ensures r.Success? ==>
        && |r.value.0| >= 1 && r.value.0[0] == variable && |r.value.1| >= 1
        && (forall v <- r.value.0 :: v.data.Identifier?)
    {
      var variables :- ParseForNames(variable);
      var iterators :- ParseExpressionList(fc);
      return Success((variables, iterators));
    }

    /** The names of a generic `for` after the first, each declared like a parameter, then `in`. */
    method ParseForNames(variable: Node) returns (r: Result<seq<Node>, SyntaxError>)
      requires Valid() && variable.data.Identifier?
      modifies this
      ensures r.Success? ==> Kept(0, 0) && Consumed() && ValueIs(previousToken.value, L.In)
      ensures r.Success? ==>
        |r.value| >= 1 && r.value[0] == variable && forall v <- r.value :: v.data.Identifier?
    {
      var variables := [variable];
      while true
        invariant Kept(0, 0) && |variables| >= 1 && variables[0] == variable
        invariant forall v <- variables :: v.data.Identifier?
        decreases Measure()
      {
        var more :- Consume(L.Comma);
        if !more {
          break;
        }
        var v :- ParseDeclaredName();
        variables := variables + [v];
      }
      :- Expect(L.In);
      return Success(variables);
    }

    /** The body of a `for` loop: `do`, then a loop flow scope around a block (the loop's scope is the statement's). */
    method ParseLoopBody(fc: FlowContext) returns (r: Result<seq<Node>, SyntaxError>)
      requires Ready(fc)
      modifies this, fc.Obj()
      decreases Measure(), 400
      ensures !ValueIs(old(token).value, L.Do) ==> r == Failure(RaiseAt(old(token).value, Expected(L.Do)))
      ensures r.Success? ==> Kept(0, 0) && FlowKept(fc) && Consumed() && ProperBlock(r.value, features)
    {
      var step := Expect(L.Do);
      if step.Fail? {
        return Failure(step.error);
      }
      FlowPushScope(fc, true);
      var body :- ParseBlock(fc);
      var o := FlowPopScope(fc);
      assert o.Pass?;
      return Success(body);
    }

    /**
      `parseLocalStatement`, after `local`: a name list with optional values, or `function` and a name; any
      other token raises `expected <name>`. Every name is declared in the flow context at the `local` token.
    */
    method ParseLocalStatement(fc: FlowContext) returns (r: Result<Node, SyntaxError>)
      requires Ready(fc) && previousToken.Some? && (trackLocations ==> |locations| >= 1)
      modifies this, fc.Obj()
      decreases Measure(), 470
      ensures !old(token).value.kind.Identifier? && !ValueIs(old(token).value, L.Function) ==>
        r == Failure(RaiseAt(old(token).value, ExpectedToken(L.NameExpected)))
      ensures r.Success? ==> Kept(1, 0) && FlowKept(fc) && Consumed()
      ensures r.Success? && old(token).value.kind.Identifier? ==>
        r.value.data.LocalStatement? && |r.value.data.variables| >= 1
        && (forall v <- r.value.data.variables :: v.data.Identifier?)
      ensures r.Success? && !old(token).value.kind.Identifier? ==>
        && r.value.data.FunctionDeclaration? && r.value.data.isLocalFunction
        && r.value.data.identifier.Some? && r.value.data.identifier.value.data.Identifier?
    {
      var declToken := previousToken.value;
      if token.value.kind.Identifier? {
        r := ParseLocalVariables(declToken, fc);
        return;
      }
      var isFunction :- Consume(L.Function);
      if !isFunction {
        return Failure(RaiseAt(token.value, ExpectedToken(L.NameExpected)));
      }
      r := ParseLocalFunction(declToken, fc);
    }

    /**
      `local` names and optional values: each name is declared in the flow context as it is read, but joins
      the scope only after the values, which therefore cannot see it.
    */
    method ParseLocalVariables(declToken: Token, fc: FlowContext) returns (r: Result<Node, SyntaxError>)
      requires Ready(fc) && (trackLocations ==> |locations| >= 1)
      modifies this, fc.Obj()
      decreases Measure(), 465
      ensures r.Success? ==> Kept(1, 0) && FlowKept(fc) && Consumed()
      ensures r.Success? ==>
        && r.value.data.LocalStatement? && |r.value.data.variables| >= 1
        && (forall v <- r.value.data.variables :: v.data.Identifier?)
        && (options.scope ==> forall v <- r.value.data.variables :: v.data.name in scopes[|scopes| - 1])
    {
      var variables :- ParseLocalNames(declToken, fc);
      var init :- ParseLocalValues(fc);
      var n := FinishLocal(variables, init);
      return Success(n);
    }

    /** The names of a `local` statement join the current scope (when scopes are tracked), and its node is finished. */
    method FinishLocal(variables: seq<Node>, init: seq<Node>) returns (n: Node)
      requires Valid() && forall v <- variables :: v.data.Identifier?
      modifies this`scopes, this`globals, this`locations
      ensures Valid() && |scopes| == |old(scopes)| && locations == Dropped(old(locations), 1)
      ensures n.data.LocalStatement? && |n.data.variables| == |variables| && n.data.init == init
      ensures forall v <- n.data.variables :: v.data.Identifier?
      ensures options.scope ==> forall v <- n.data.variables :: v.data.name in scopes[|scopes| - 1]
    {
      var names := ScopeIdentifiers(variables);
      n := FinishNode(LocalStatement(names, init));
    }

    /** The names of a `local` statement, separated by `,`, each declared in the flow context at `declToken`. */
    method ParseLocalNames(declToken: Token, fc: FlowContext) returns (r: Result<seq<Node>, SyntaxError>)
      requires Ready(fc)
      modifies this, fc.Obj()
      ensures r.Success? ==> Kept(0, 0) && FlowKept(fc) && Consumed()
      ensures r.Success? ==> |r.value| >= 1 && forall v <- r.value :: v.data.Identifier?
    {
      var names: seq<Node> := [];
      while true
        invariant Kept(0, 0) && FlowKept(fc) && forall v <- names :: v.data.Identifier?
        invariant names != [] ==> Consumed()
        decreases Measure()
      {
        var name :- ParseLocalName(declToken, fc);
        names := names + [name];
        var more :- Consume(L.Comma);
        if !more {
          break;
        }
      }
      return Success(names);
    }

    /** A name declared by `local`: `parseIdentifier`, then `addLocal` of the name at `declToken`. */
    method ParseLocalName(declToken: Token, fc: FlowContext) returns (r: Result<Node, SyntaxError>)
      requires Ready(fc)
      modifies this, fc.Obj()
      ensures !old(token).value.kind.Identifier? ==>
        r == Failure(RaiseAt(old(token).value, ExpectedToken(L.NameExpected)))
      ensures r.Success? ==> Kept(0, 0) && FlowKept(fc) && Consumed() && scopes == old(scopes) && globals == old(globals)
      ensures r.Success? ==>
        old(token).value.kind.Identifier? && r.value.data == NodeData.Identifier(old(token).value.value.text, None)
    {
      var name :- ParseIdentifier();
      FlowAddLocal(fc, name.data.name, declToken);
      return Success(name);
    }

    /** The values of a `local` statement: after a `=`, an expression list; none without one. */
    method ParseLocalValues(fc: FlowContext) returns (r: Result<seq<Node>, SyntaxError>)
      requires Ready(fc)
      modifies this, fc.Obj()
      decreases Measure(), 455
      ensures !ValueIs(old(token).value, L.Assign) ==> r == Success([]) && unchanged(this) && unchanged(fc.Obj())
      ensures r.Success? ==> Kept(0, 0) && FlowKept(fc)
      ensures r.Success? && ValueIs(old(token).value, L.Assign) ==> |r.value| >= 1
    {
      var assign :- Consume(L.Assign);
      if !assign {
        return Success([]);
      }
      r := ParseExpressionList(fc);
    }

    /** `scopeIdentifier` on each name in turn when scopes are tracked; the names come back marked local. */
    method ScopeIdentifiers(names: seq<Node>) returns (r: seq<Node>)
      requires Valid() && forall n <- names :: n.data.Identifier?
      modifies this`scopes, this`globals
      ensures Valid() && |scopes| == |old(scopes)| && globals == old(globals)
      ensures |r| == |names|
      ensures forall i :: 0 <= i < |r| ==> r[i] == if options.scope then MarkLocal(names[i], true) else names[i]
      ensures options.scope ==> forall n <- names :: n.data.name in scopes[|scopes| - 1]
      ensures !options.scope ==> scopes == old(scopes)
    {
      r := names;
      if !options.scope {
        return;
      }
      var i := 0;
      while i < |names|
        invariant 0 <= i <= |names| && |r| == |names|
        invariant Valid() && |scopes| == |old(scopes)| && globals == old(globals)
        invariant forall j :: 0 <= j < i ==> r[j] == MarkLocal(names[j], true) && names[j].data.name in scopes[|scopes| - 1]
        invariant forall j :: i <= j < |names| ==> r[j] == names[j]
      {
        var n := ScopeIdentifier(names[i]);
        r := r[i := n];
        i := i + 1;
      }
    }

    /**
      `local function`, after `function`: the name is declared in the flow context and, when scopes are
      tracked, in the current scope before the function's own scope opens, so the body can call itself.
    */
    method ParseLocalFunction(declToken: Token, fc: FlowContext) returns (r: Result<Node, SyntaxError>)
      requires Ready(fc) && (trackLocations ==> |locations| >= 1)
      modifies this, fc.Obj()
      decreases Measure(), 460
      ensures !old(token).value.kind.Identifier? ==>
        r == Failure(RaiseAt(old(token).value, ExpectedToken(L.NameExpected)))
      ensures r.Success? ==> Kept(1, 0) && FlowKept(fc) && Consumed()
      ensures r.Success? ==>
        && r.value.data.FunctionDeclaration? && r.value.data.isLocalFunction
        && r.value.data.identifier.Some? && r.value.data.identifier.value.data.Identifier?
        && r.value.data.identifier.value.data.name == old(token).value.value.text
    {
      var name :- ParseLocalName(declToken, fc);
      name := ScopeLocalFunction(name);
      r := ParseFunctionDeclaration(Some(name), true);
    }

    /**
      When scopes are tracked, the name of a `local function` joins the current scope, is marked local, and
      the function's own scope opens.
    */
    method ScopeLocalFunction(name: Node) returns (r: Node)
      requires Valid() && name.data.Identifier?
      modifies this`scopes, this`scopeDepth, this`globals
      ensures Valid() && |scopes| == |old(scopes)| + (if options.scope then 1 else 0) && globals == old(globals)
      ensures r == if options.scope then MarkLocal(name, true) else name
      ensures options.scope ==> name.data.name in scopes[|scopes| - 2]
    {
      r := name;
      if options.scope {
        r := ScopeIdentifier(name);
        CreateScope();
      }
    }

    /** `function` and a function name, after the keyword: a function declaration that is not local. */
    method ParseFunctionStatement() returns (r: Result<Node, SyntaxError>)
      requires Valid() && (trackLocations ==> |locations| >= 1)
      modifies this
      decreases Measure(), 470
      ensures !old(token).value.kind.Identifier? ==>
        r == Failure(RaiseAt(old(token).value, ExpectedToken(L.NameExpected)))
      ensures r.Success? ==> Kept(1, 0) && Consumed()
      ensures r.Success? ==>
        && r.value.data.FunctionDeclaration? && !r.value.data.isLocalFunction
        && r.value.data.identifier.Some? && FunctionName(r.value.data.identifier.value)
    {
      var name :- ParseFunctionName();
      r := ParseFunctionDeclaration(Some(name), false);
    }

    /**
      `parseAssignmentOrCallStatement`: comma-separated prefix expressions (see `ParseTargets`). A lone call
      is a call statement, located where the call starts; otherwise every target must end in a name, a `.`
      member or an index, and `=` and the value list follow. Anything else raises `unexpected`.
    */
    method ParseAssignmentOrCallStatement(fc: FlowContext) returns (r: Result<Node, SyntaxError>)
      requires Ready(fc)
      modifies this, fc.Obj()
      decreases Measure(), 340
      ensures !StartsPrefix(old(token).value) ==> r == Failure(UnexpectedToken(old(token).value))
      ensures r.Success? ==> Kept(0, 0) && FlowKept(fc) && Consumed()
      ensures r.Success? ==>
        || (r.value.data.CallStatement? && IsCall(r.value.data.expression))
        || (&& r.value.data.AssignmentStatement?
            && |r.value.data.variables| >= 1 && |r.value.data.init| >= 1
            && (forall v <- r.value.data.variables :: IsAssignable(v)))
    {
      var startMarker := TokenMarker();
      var ts :- ParseTargets(fc);
      if |ts.targets| == 1 && ts.lvalue.None? {
        PushLocation(ts.marker);
        var n := FinishNode(CallStatement(ts.targets[0]));
        return Success(n);
      } else if ts.lvalue != Some(true) {
        return Failure(UnexpectedToken(token.value));
      }
      r := ParseAssignment(ts.targets, startMarker, fc);
    }

    /**
      The comma-separated expressions of an assignment or call statement, each located from its own first
      token; a `,` after one that does not end as an assignable expression raises `unexpected`.
    */
    method ParseTargets(fc: FlowContext) returns (r: Result<Targets, SyntaxError>)
      requires Ready(fc)
      modifies this, fc.Obj()
      decreases Measure(), 335
      ensures !StartsPrefix(old(token).value) ==> r == Failure(UnexpectedToken(old(token).value))
      ensures r.Success? ==> Kept(0, 0) && FlowKept(fc) && Consumed() && !ValueIs(token.value, L.Comma)
      ensures r.Success? ==>
        var ts := r.value.targets;
        && |ts| >= 1
        && (forall i :: 0 <= i < |ts| - 1 ==> IsAssignable(ts[i]))
        && (r.value.lvalue == Some(true) ==> IsAssignable(ts[|ts| - 1]))
        && (r.value.lvalue.None? ==> IsCall(ts[|ts| - 1]))
    {
      var targets: seq<Node> := [];
      while true
        invariant Kept(0, 0) && FlowKept(fc)
        invariant targets == [] ==> token == old(token)
        invariant targets != [] ==> Consumed() && StartsPrefix(old(token).value)
        invariant forall v <- targets :: IsAssignable(v)
        decreases Measure()
      {
        var marker := TokenMarker();
        var target :- ParseTarget(marker, fc);
        if !ValueIs(token.value, L.Comma) {
          return Success(Targets(targets + [target.0], target.1, marker));
        }
        if target.1 != Some(true) {
          return Failure(UnexpectedToken(token.value));
        }
        targets := targets + [target.0];
        :- NextLex();
      }
    }

    /**
      One target: a name or a parenthesized expression, then the suffixes the switch of the source takes,
      with whether the last one leaves it assignable (a name, `.` or `[`: `Some(true)`), a call (`:`, `(`,
      `{` or a string: `None`) or neither (a parenthesized expression alone: `Some(false)`).
    */
    method ParseTarget(marker: Marker, fc: FlowContext) returns (r: Result<(Node, Option<bool>), SyntaxError>)
      requires Ready(fc)
      modifies this, fc.Obj()
      decreases Measure(), 330
      ensures !StartsPrefix(old(token).value) ==> r == Failure(UnexpectedToken(old(token).value))
      ensures r.Success? ==> Kept(0, 0) && FlowKept(fc) && Consumed()
      ensures r.Success? ==>
        (r.value.1 == Some(true) ==> IsAssignable(r.value.0)) && (r.value.1.None? ==> IsCall(r.value.0))
    {
      var t := token.value;
      var base :- ParsePrefixBase(fc);
      if base.None? {
        return Failure(UnexpectedToken(t));
      }
      r := ParseTargetSuffixes(base.value, Some(t.kind.Identifier?), marker, fc);
    }

    /** The suffix loop of a target: it goes on while the token (a string counting as `"`) is `. [ : ( {` or `"`. */
    method ParseTargetSuffixes(base: Node, lvalue: Option<bool>, marker: Marker, fc: FlowContext)
      returns (r: Result<(Node, Option<bool>), SyntaxError>)
      requires Ready(fc) && previousToken.Some?
      requires (lvalue == Some(true) ==> IsAssignable(base)) && (lvalue.None? ==> IsCall(base))
      modifies this, fc.Obj()
      decreases Measure(), 325
      ensures r.Success? ==> Kept(0, 0) && FlowKept(fc) && !StartsSuffix(token.value)
      ensures r.Success? ==>
        (r.value.1 == Some(true) ==> IsAssignable(r.value.0)) && (r.value.1.None? ==> IsCall(r.value.0))
    {
      var e := base;
      var lv := lvalue;
      while true
        invariant Kept(0, 0) && FlowKept(fc) && previousToken.Some?
        invariant (lv == Some(true) ==> IsAssignable(e)) && (lv.None? ==> IsCall(e))
        decreases Measure()
      {
        var s := token.value;
        var key := SuffixKey(s);
        if key in {Text(L.Dot), Text(L.LBracket)} {
          lv := Some(true);
        } else if key in {Text(L.Colon), Text(L.LParen), Text(L.LBrace), Text([34])} {
          lv := None;
        } else {
          break;
        }
        SuffixKeyStartsSuffix(s, features);
        var next :- ParsePrefixExpressionPart(e, marker, fc);
        e := next.value;
      }
      return Success((e, lv));
    }

    /** `=` and the values after the targets; the statement is located from where the first target starts. */
    method ParseAssignment(targets: seq<Node>, startMarker: Marker, fc: FlowContext) returns (r: Result<Node, SyntaxError>)
      requires Ready(fc) && |targets| >= 1 && forall v <- targets :: IsAssignable(v)
      modifies this, fc.Obj()
      decreases Measure(), 320
      ensures !ValueIs(old(token).value, L.Assign) ==> r == Failure(RaiseAt(old(token).value, Expected(L.Assign)))
      ensures r.Success? ==> Kept(0, 0) && FlowKept(fc) && Consumed()
      ensures r.Success? ==>
        r.value.data.AssignmentStatement? && r.value.data.variables == targets && |r.value.data.init| >= 1
    {
      var step := Expect(L.Assign);
      if step.Fail? {
        return Failure(step.error);
      }
      var values :- ParseExpressionList(fc);
      PushLocation(startMarker);
      var n := FinishNode(AssignmentStatement(targets, values));
      return Success(n);
    }

    /**
      `parseFunctionName`: `Name {'.' Name} [':' Name]`, each member located from the first name. With scopes
      tracked the first name is marked local or global and a scope for the function is opened.
    */
    method ParseFunctionName() returns (r: Result<Node, SyntaxError>)
      requires Valid()
      modifies this
      ensures !old(token).value.kind.Identifier? ==>
        r == Failure(RaiseAt(old(token).value, ExpectedToken(L.NameExpected)))
      ensures r.Success? ==> Kept(0, if options.scope then 1 else 0) && Consumed() && FunctionName(r.value)
      ensures r.Success? && options.scope && IsMethodCallBase(r.value) ==> L.Self in scopes[|scopes| - 1]
    {
      var marker := TokenMarker();
      var base :- ParseNameReference();
      if options.scope {
        CreateScope();
      }
      r := ParseFunctionNameTail(base, marker);
    }

    /**
      The `.name` parts of a function name, then an optional `:name`, which declares `self` when scopes are
      tracked. (The source takes each `.` before pushing the marker; the state after a part is the same.)
    */
    method ParseFunctionNameTail(base: Node, marker: Marker) returns (r: Result<Node, SyntaxError>)
      requires Valid() && DottedName(base)
      modifies this
      ensures r.Success? ==> Kept(0, 0) && FunctionName(r.value)
      ensures r.Success? && options.scope && IsMethodCallBase(r.value) ==> L.Self in scopes[|scopes| - 1]
    {
      var name := base;
      while ValueIs(token.value, L.Dot)
        invariant Kept(0, 0) && DottedName(name)
        decreases Measure()
      {
        name :- ParseMemberExpression(name, marker, L.Dot);
      }
      if ValueIs(token.value, L.Colon) {
        name :- ParseMemberExpression(name, marker, L.Colon);
        if options.scope {
          ScopeIdentifierName(L.Self);
        }
      }
      return Success(name);
    }

    // ---------------------------------------------------------------------------------------------------
    // The chunk

    /**
      `parseChunk`: the first token, the body (see `ParseChunkBody`) and the end of input (see `FinishChunk`).
      Every marker pushed on the way has been popped when it succeeds.
    */
    method ParseChunk() returns (r: Result<Node, SyntaxError>)
      requires Window() && token.None? && previousToken.None?
      requires scopes == [[]] && scopeDepth == 0 && globals == [] && locations == []
      modifies this
      ensures r.Success? ==> locations == [] && token.Some? && token.value.kind.EOF?
      ensures r.Success? ==>
        && r.value.data.Chunk? && ProperBlock(r.value.data.body, features)
        && r.value.data.comments.None? && r.value.data.globals.None?
      ensures r.Success? ==> DistinctGlobals(globals)
    {
      var step := NextLex();
      if step.Fail? {
        return Failure(step.error);
      }
      MarkLocation();
      var body :- ParseChunkBody();
      r := FinishChunk(body);
    }

    /** The chunk's block: a scope when scopes are tracked and a flow context that allows `...` around it. */
    method ParseChunkBody() returns (r: Result<seq<Node>, SyntaxError>)
      requires Valid()
      modifies this
      ensures r.Success? ==> Kept(0, 0) && ProperBlock(r.value, features)
    {
      if options.scope {
        CreateScope();
      }
      var fc := ChunkFlowContext();
      var body :- ParseBlock(fc);
      :- CloseScope(fc);
      return Success(body);
    }

    /** `makeFlowContext` for the chunk: `...` is allowed and one flow scope is open. */
    method ChunkFlowContext() returns (fc: FlowContext)
      ensures fresh(fc.Obj()) && fc.Valid() && fc.Depth() == 1 && fc.AllowVararg() && (fc.Full? <==> features.labels)
    {
      fc := MakeFlowContext(features.labels);
      FlowAllowVararg(fc);
      FlowPushScope(fc, false);
    }

    /**
      The end of the chunk: any token but the end of input raises `unexpected`. An empty body ends where the
      `<eof>` token ends, which stands in for the missing previous token.
    */
    method FinishChunk(body: seq<Node>) returns (r: Result<Node, SyntaxError>)
      requires Valid()
      modifies this
      ensures !old(token).value.kind.EOF? ==> r == Failure(UnexpectedToken(old(token).value))
      ensures r.Success? ==>
        && r.value.data == Chunk(body, None, None) && locations == Dropped(old(locations), 1)
        && token == old(token) && globals == old(globals)
    {
      if !token.value.kind.EOF? {
        return Failure(UnexpectedToken(token.value));
      }
      if trackLocations && |body| == 0 {
        previousToken := token;
      }
      var n := FinishNode(Chunk(body, None, None));
      return Success(n);
    }
  }

  /**
    `parse(input, options)` with `wait` off: a parser over the input, the first lookahead, the chunk, then
    the comments and the globals attached when those options ask for them. `nanChar` stands for what the host's
    `String.fromCharCode(NaN)` returns, which a string escape worth 0 reaches.
  */
  method Parse(input: seq<int>, options: Options, nanChar: seq<int>) returns (r: Result<Node, SyntaxError>)
    ensures r.Success? ==>
      && r.value.data.Chunk?
      && (r.value.data.comments.Some? <==> options.comments)
      && (r.value.data.globals.Some? <==> options.scope)
      && ProperBlock(r.value.data.body, VersionFeatures(options.luaVersion, options.extendedIdentifiers))
      && (options.scope ==> DistinctGlobals(r.value.data.globals.value))
  {
    var p := new Parser(input, options, nanChar);
    var first := p.LexLookahead();
    if first.Fail? {
      return Failure(first.error);
    }
    var chunk :- p.ParseChunk();
    assert p.locations == [];
    var comments := if options.comments then Some(p.comments) else None;
    var globals := if options.scope then Some(p.globals) else None;
    return Success(chunk.(data := chunk.data.(comments := comments, globals := globals)));
  }

  /**
    Where a quoted string from `i` stops being plain text: the first delimiter, backslash or line break, or the
    end of `s`.
  */
  function StringStop(s: seq<int>, i: nat, delimiter: int): (j: nat)
    requires i <= |s|
    ensures i <= j <= |s|
    ensures forall k :: i <= k < j ==> s[k] != delimiter && s[k] != 92 && !IsLineTerminator(s[k])
    ensures j < |s| ==> s[j] == delimiter || s[j] == 92 || IsLineTerminator(s[j])
    decreases |s| - i
  {
    if i < |s| && s[i] != delimiter && s[i] != 92 && !IsLineTerminator(s[i]) then StringStop(s, i + 1, delimiter) else i
  }

  /** The end of the line from `i`: the first line terminator at or after `i`, or the end of `s`. */
  function LineEnd(s: seq<int>, i: nat): (j: nat)
    requires i <= |s|
    ensures i <= j <= |s|
    ensures forall k :: i <= k < j ==> !IsLineTerminator(s[k])
    ensures j < |s| ==> IsLineTerminator(s[j])
    decreases |s| - i
  {
    if i < |s| && !IsLineTerminator(s[i]) then LineEnd(s, i + 1) else i
  }

  /** Any position that ends a line from `i` is `LineEnd(s, i)`. */
  lemma {:induction false} LineEndIs(s: seq<int>, i: nat, j: nat)
    requires i <= j <= |s|
    requires forall k :: i <= k < j ==> !IsLineTerminator(s[k])
    requires j < |s| ==> IsLineTerminator(s[j])
    ensures LineEnd(s, i) == j
    decreases j - i
  {
    if i < j {
      LineEndIs(s, i + 1, j);
    }
  }
}
