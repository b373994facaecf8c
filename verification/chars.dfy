/** Character classes, keywords and punctuators of section 3.1 of the Lua reference manual, gated by dialect flags. */
module CharClass {
  import opened Text
  import opened LuaFeatures
  import L = Lexemes

  /** What `String.charCodeAt` yields past either end of the input: a value no class accepts. */
  const NoChar: int := -1

  /** Horizontal tab, space, vertical tab and form feed: control or ASCII units that never end a line. */
  predicate IsWhiteSpace(c: int)
    ensures IsWhiteSpace(c) ==> 0 < c < 128 && !IsLineTerminator(c)
  {
    c == 9 || c == 32 || c == 0xB || c == 0xC
  }

  /** Line feed and carriage return: control units, so never part of a word, number or punctuator. */
  predicate IsLineTerminator(c: int)
    ensures IsLineTerminator(c) ==> 0 < c < 32
  {
    c == 10 || c == 13
  }

  predicate IsLetter(c: int) { (65 <= c <= 90) || (97 <= c <= 122) || c == 95 }

  /** Letters and `_`; with extended identifiers also any unit from 128 up. */
  predicate IsIdentifierStart(c: int, f: Features)
    ensures IsIdentifierStart(c, f) ==> IsIdentifierPart(c, f) && !IsDecDigit(c)
  {
    IsLetter(c) || (f.extendedIdentifiers && c >= 128)
  }

  /** A name runs on over letters, digits and `_`; blanks, quotes, `-`, `.`, `[` and backslash end it. */
  predicate IsIdentifierPart(c: int, f: Features)
    ensures IsIdentifierPart(c, f) ==>
      !IsWhiteSpace(c) && !IsLineTerminator(c) && c !in {34, 39, 45, 46, 91, 92}
  {
    IsLetter(c) || IsDecDigit(c) || (f.extendedIdentifiers && c >= 128)
  }

  /** `isKeyword`: dispatches on the length of the word as the source does. */
  predicate IsKeyword(id: seq<int>, f: Features)
    ensures IsKeyword(id, f) <==> id in Keywords(f)
  {
    match |id|
    case 2 => id == L.Do || id == L.If || id == L.In || id == L.Or
    case 3 => id == L.And || id == L.End || id == L.For || id == L.Not
    case 4 =>
      if id == L.Else || id == L.Then then true
      else if f.labels && !f.contextualGoto then id == L.Goto
      else false
    case 5 => id == L.Break || id == L.Local || id == L.Until || id == L.While
    case 6 => id == L.ElseIf || id == L.Repeat || id == L.Return
    case 8 => id == L.Function
    case _ => false
  }

  /** The reserved words of section 3.1 of the Lua 5.2 manual, without `true`, `false` and `nil`. */
  function Keywords(f: Features): (ks: set<seq<int>>)
    ensures L.Goto in ks <==> f.labels && !f.contextualGoto
    ensures L.True !in ks && L.False !in ks && L.Nil !in ks
  {
    {L.And, L.Break, L.Do, L.Else, L.ElseIf, L.End, L.For, L.Function, L.If, L.In, L.Local,
     L.Not, L.Or, L.Repeat, L.Return, L.Then, L.Until, L.While}
    + (if f.labels && !f.contextualGoto then {L.Goto} else {})
  }

  /** The punctuators `lex` can return under a feature set, by length. */
  predicate IsPunctuator(p: seq<int>, f: Features) {
    match |p|
    case 1 =>
      p[0] in {46, 61, 62, 60, 58, 91, 47, 42, 94, 37, 44, 123, 125, 93, 40, 41, 59, 35, 45, 43}
      || (f.bitwiseOperators && p[0] in {126, 38, 124})
    case 2 =>
      p in {L.DotDot, L.Eq, L.Ge, L.Le, L.Ne}
      || (f.bitwiseOperators && (p == L.Shr || p == L.Shl))
      || (f.labels && p == L.DoubleColon)
      || (f.integerDivision && p == L.DoubleSlash)
    case _ => false
  }

  /** The dialect-gated punctuators exist exactly under their flags; `...` is never a punctuator. */
  lemma GatedPunctuators(f: Features)
    ensures IsPunctuator(L.DoubleColon, f) <==> f.labels
    ensures IsPunctuator(L.DoubleSlash, f) <==> f.integerDivision
    ensures IsPunctuator(L.Shr, f) <==> f.bitwiseOperators
    ensures IsPunctuator(L.Shl, f) <==> f.bitwiseOperators
    ensures IsPunctuator(L.Tilde, f) <==> f.bitwiseOperators
    ensures IsPunctuator(L.Amp, f) <==> f.bitwiseOperators
    ensures IsPunctuator(L.Pipe, f) <==> f.bitwiseOperators
    ensures !IsPunctuator(L.Ellipsis, f)
    ensures IsPunctuator(L.Ne, f) && IsPunctuator(L.Colon, f) && IsPunctuator(L.Slash, f)
  {
  }

  /** The classes the lexer dispatches on do not overlap, so `lex` never has two readings of one unit. */
  lemma ClassesDisjoint(c: int, f: Features)
    ensures IsIdentifierStart(c, f) ==> IsIdentifierPart(c, f)
    ensures IsIdentifierStart(c, f) ==> !IsDecDigit(c) && !IsWhiteSpace(c) && !IsLineTerminator(c)
    ensures IsWhiteSpace(c) ==> !IsLineTerminator(c)
    ensures !IsWhiteSpace(NoChar) && !IsLineTerminator(NoChar) && !IsHexDigit(NoChar)
    ensures !IsIdentifierPart(NoChar, f)
    ensures IsDecDigit(c) ==> IsHexDigit(c)
  {
  }

  /** Every punctuator has one or two units. */
  lemma PunctuatorLength(f: Features)
    ensures forall p :: IsPunctuator(p, f) ==> 1 <= |p| <= 2
  {
  }

  /** The punctuators of one and of two units, spelled out unit by unit. */
  lemma PunctuatorUnits(a: int, b: int, f: Features)
    ensures IsPunctuator([a], f) <==>
      a in {46, 61, 62, 60, 58, 91, 47, 42, 94, 37, 44, 123, 125, 93, 40, 41, 59, 35, 45, 43}
      || (f.bitwiseOperators && a in {126, 38, 124})
    ensures IsPunctuator([a, b], f) <==>
      || (a == 46 && b == 46) || (a == 61 && b == 61) || (a == 62 && b == 61) || (a == 60 && b == 61)
      || (a == 126 && b == 61)
      || (f.bitwiseOperators && ((a == 62 && b == 62) || (a == 60 && b == 60)))
      || (f.labels && a == 58 && b == 58)
      || (f.integerDivision && a == 47 && b == 47)
  {
  }
}
