/** Operator precedence for the precedence-climbing expression parser. */
module Precedence {
  import opened LuaFeatures
  import opened CharClass
  import L = Lexemes

  /**
    `binaryPrecedence`: dispatch on the operator's length and first code unit, as the source does,
    without looking at the rest of the text except for `<<`, `>>` and `and`.
  */
  function BinaryPrecedence(op: seq<int>): (p: nat)
    ensures p <= 12
  {
    if |op| == 1 then
      var c := op[0];
      if c == 94 then 12
      else if c == 42 || c == 47 || c == 37 then 10
      else if c == 43 || c == 45 then 9
      else if c == 38 then 6
      else if c == 126 then 5
      else if c == 124 then 4
      else if c == 60 || c == 62 then 3
      else 0
    else if |op| == 2 then
      var c := op[0];
      if c == 47 then 10
      else if c == 46 then 8
      else if c == 60 || c == 62 then (if op == L.Shl || op == L.Shr then 7 else 3)
      else if c == 61 || c == 126 then 3
      else if c == 111 then 1
      else 0
    else if |op| > 0 && op[0] == 97 && op == L.And then 2
    else 0
  }

  /** The binary operator table of section 3.4.8 of the Lua 5.3 reference manual, from lowest to highest. */
  function ManualPrecedence(op: seq<int>): nat {
    if op == L.Or then 1
    else if op == L.And then 2
    else if op in {L.Lt, L.Gt, L.Le, L.Ge, L.Ne, L.Eq} then 3
    else if op == L.Pipe then 4
    else if op == L.Tilde then 5
    else if op == L.Amp then 6
    else if op == L.Shl || op == L.Shr then 7
    else if op == L.DotDot then 8
    else if op == L.Plus || op == L.Minus then 9
    else if op in {L.Star, L.Slash, L.DoubleSlash, L.Percent} then 10
    else if op == L.Caret then 12
    else 0
  }

  /**
    On every punctuator and keyword the lexer can produce, the dispatch agrees with the manual's table;
    the punctuators and keywords that are not binary operators get 0.
  */
  lemma PrecedenceMatchesManual(op: seq<int>, f: Features)
    requires IsPunctuator(op, f) || IsKeyword(op, f)
    ensures BinaryPrecedence(op) == ManualPrecedence(op)
  {
    if IsKeyword(op, f) {
      KeywordPrecedence(op, f);
    } else if |op| == 1 {
      assert op == [op[0]];
    }
  }

  /** Among keywords only `and` and `or` are operators. */
  lemma KeywordPrecedence(op: seq<int>, f: Features)
    requires IsKeyword(op, f)
    ensures BinaryPrecedence(op) == ManualPrecedence(op)
  {
    if |op| == 2 {
      assert op in {L.Do, L.If, L.In, L.Or};
    } else if |op| == 3 {
      assert op in {L.And, L.End, L.For, L.Not};
    }
  }

  /** The precedence at which a right operand is parsed: one lower for the right-associative `^` and `..`. */
  function RightOperandPrecedence(op: seq<int>): int {
    if op == L.Caret || op == L.DotDot then BinaryPrecedence(op) - 1 else BinaryPrecedence(op)
  }

  /** Operands of unary operators are parsed at this precedence. */
  const UnaryPrecedence: nat := 10

  /**
    An operator continues the loop of a sub-expression parsed at `minPrecedence` exactly when its precedence
    is positive and above `minPrecedence`.
  */
  predicate Binds(op: seq<int>, minPrecedence: int) {
    BinaryPrecedence(op) != 0 && BinaryPrecedence(op) > minPrecedence
  }

  /**
    A binary operator is right-associative (the same operator binds again inside its right operand) exactly
    when it is `^` or `..`; every other operator is left-associative.
  */
  lemma Associativity(op: seq<int>)
    requires BinaryPrecedence(op) > 0
    ensures Binds(op, RightOperandPrecedence(op)) <==> op == L.Caret || op == L.DotDot
  {
  }

  /**
    Only `^` binds tighter than a unary operator: in `-x ^ y` the power is the operand of the minus, while in
    `-x * y` and every other binary expression the unary expression is the left operand.
  */
  lemma UnaryBindsTighterExceptPower(op: seq<int>)
    ensures Binds(op, UnaryPrecedence) <==> op == L.Caret
  {
    if Binds(op, UnaryPrecedence) {
      assert |op| == 1 && op[0] == 94;
      assert op == [op[0]];
    }
  }
}
