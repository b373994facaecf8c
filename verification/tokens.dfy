/** Tokens as the lexer produces them, and the classification of identifier runs. */
module Tokens {
  import opened Wrappers
  import opened Text
  import opened LuaFeatures
  import opened CharClass
  import L = Lexemes

  /** `TokenType`; the source's bit flags become an enumeration plus `IsLiteralKind`. */
  datatype TokenType =
    | EOF | StringLiteral | Keyword | Identifier | NumericLiteral
    | Punctuator | BooleanLiteral | NilLiteral | VarargLiteral

  /**
    The token's `value`: text (names, punctuators, string contents), a boolean, a number, or undefined (nil).
    Of a number only `parseInt` of a plain hexadecimal digit run is kept: NaN for a run worth 0, else its value.
  */
  datatype TokenValue = Text(text: seq<int>) | Boolean(b: bool) | Number(hexInteger: Option<ParsedInt>) | Undefined

  /** `Token`: type, value, the range [start, end) of the source and the lines it starts and ends on. */
  datatype Token = Token(
    kind: TokenType,
    value: TokenValue,
    line: int,
    lineStart: int,
    start: int,
    end: int,
    lastLine: Option<int>,
    lastLineStart: Option<int>)

  /** `typeer & literals` in `parsePrimaryExpression`: the token types that become a literal node. */
  predicate IsLiteralKind(t: TokenType) {
    t == StringLiteral || t == NumericLiteral || t == BooleanLiteral || t == NilLiteral || t == VarargLiteral
  }

  /** `value === token.value` for a fixed text, as `consume` and `expect` compare. */
  predicate ValueIs(t: Token, text: seq<int>) { t.value == Text(text) }

  /** `needle` occurs in `hay` starting at position `i`. */
  predicate OccursAt(needle: seq<int>, hay: seq<int>, i: int) {
    0 <= i <= |hay| - |needle| && hay[i..i + |needle|] == needle
  }

  /** `String.indexOf(hay, value) >= 0`: the value is text occurring in `hay`; other values never occur. */
  predicate ValueOccursIn(v: TokenValue, hay: seq<int>) {
    v.Text? && exists i :: 0 <= i <= |hay| && OccursAt(v.text, hay, i)
  }

  /** The decision at the end of `scanIdentifierOrKeyword`: the token type and value of an identifier run. */
  function ClassifyWord(word: seq<int>, f: Features): (r: (TokenType, TokenValue))
    ensures r.0 == Keyword <==> word in Keywords(f)
    ensures r.0 == BooleanLiteral <==> word == L.True || word == L.False
    ensures r.0 == BooleanLiteral ==> r.1 == Boolean(word == L.True)
    ensures r.0 == NilLiteral <==> word == L.Nil
    ensures r.0 == NilLiteral ==> r.1 == Undefined
    ensures r.0 == Identifier <==> word !in Keywords(f) && word !in {L.True, L.False, L.Nil}
    ensures r.0 == Keyword || r.0 == Identifier ==> r.1 == Text(word)
    ensures r.0 in {Keyword, BooleanLiteral, NilLiteral, Identifier}
  {
    if IsKeyword(word, f) then (Keyword, Text(word))
    else if word == L.True || word == L.False then (BooleanLiteral, Boolean(word == L.True))
    else if word == L.Nil then (NilLiteral, Undefined)
    else (Identifier, Text(word))
  }

  /** `isUnary`: a `#`, `-` or `~` punctuator (found in "#-~"), or the keyword `not`. */
  predicate IsUnary(t: Token) {
    if t.kind.Punctuator? then ValueOccursIn(t.value, [35, 45, 126])
    else if t.kind.Keyword? then t.value == Text(L.Not)
    else false
  }

  /** No punctuator of two units starts with `#` or `-`. */
  lemma PairPunctuatorStart(p: seq<int>, f: Features)
    requires IsPunctuator(p, f)
    ensures |p| == 2 ==> p[0] != 35 && p[0] != 45
  {
  }

  /** Among the punctuators the lexer can produce, the substring test of `isUnary` accepts exactly `#`, `-` and `~`. */
  lemma UnaryPunctuators(t: Token, f: Features)
    requires t.kind.Punctuator? && t.value.Text? && IsPunctuator(t.value.text, f)
    ensures IsUnary(t) <==> t.value.text in {L.Hash, L.Minus, L.Tilde}
  {
    var p := t.value.text;
    var hay: seq<int> := [35, 45, 126];
    if IsUnary(t) {
      var i :| 0 <= i <= |hay| && OccursAt(p, hay, i);
      assert p == hay[i..i + |p|] && p[0] == hay[i];
      // a punctuator of two units would start with `#` or `-`, and none does
      PairPunctuatorStart(p, f);
      assert p == [hay[i]];
    }
    if p in {L.Hash, L.Minus, L.Tilde} {
      var i := if p == L.Hash then 0 else if p == L.Minus then 1 else 2;
      assert OccursAt(p, hay, i);
    }
  }

  /** `isBlockFollow`: end of input, or one of the keywords that close a block. */
  predicate IsBlockFollow(t: Token) {
    t.kind.EOF?
    || (t.kind.Keyword? && t.value in {Text(L.Else), Text(L.ElseIf), Text(L.End), Text(L.Until)})
  }

  /** What the parser may assume about a token the lexer produced under a feature set. */
  predicate WellFormed(t: Token, f: Features) {
    && (t.kind.Keyword? ==> t.value.Text? && IsKeyword(t.value.text, f))
    && (t.kind.Punctuator? ==> t.value.Text? && IsPunctuator(t.value.text, f))
    && (t.kind.Identifier? ==>
      t.value.Text? && |t.value.text| > 0 && IsIdentifierStart(t.value.text[0], f) && !IsKeyword(t.value.text, f))
    && (t.kind.StringLiteral? ==> t.value.Text?)
    && (t.kind.VarargLiteral? ==> t.value == Text(L.Ellipsis))
    && (t.kind.EOF? ==> t.value == Text(L.EofText))
    && (t.kind.NumericLiteral? ==> t.value.Number?)
    && (t.kind.BooleanLiteral? ==> t.value.Boolean?)
    && (t.kind.NilLiteral? ==> t.value == Undefined)
  }

  /**
    The part of `WellFormed` the parse functions rely on: names and keywords start with a letter (so they
    never spell a punctuator), no name spells `return` or `break`, `goto` is a keyword only with labels,
    no punctuator is a quote, `::` is a punctuator only with labels, and every other token type carries
    its kind of value.
  */
  predicate Parsable(t: Token, f: Features) {
    && (t.kind.Keyword? || t.kind.Punctuator? || t.kind.Identifier? || t.kind.StringLiteral? ==> t.value.Text?)
    && (t.kind.Keyword? || t.kind.Identifier? ==>
      |t.value.text| > 0 && (IsLetter(t.value.text[0]) || t.value.text[0] >= 128))
    && (t.kind.Identifier? ==> t.value.text != L.Return && t.value.text != L.Break)
    && (t.kind.Keyword? && t.value.text == L.Goto ==> f.labels)
    && (t.kind.Punctuator? ==> t.value.text != [34] && (t.value.text == L.DoubleColon ==> f.labels))
    && (t.kind.VarargLiteral? ==> t.value == Text(L.Ellipsis))
    && (t.kind.EOF? ==> t.value == Text(L.EofText))
    && (t.kind.NumericLiteral? ==> t.value.Number?)
    && (t.kind.BooleanLiteral? ==> t.value.Boolean?)
    && (t.kind.NilLiteral? ==> t.value == Undefined)
  }

  /** Every token the lexer produces is parsable. */
  lemma WellFormedParsable(t: Token, f: Features)
    requires WellFormed(t, f)
    ensures Parsable(t, f)
  {
    if t.kind.Identifier? {
      assert IsKeyword(L.Return, f) && IsKeyword(L.Break, f);
    }
  }
}
