/**
  The decisions the recursive-descent parser takes on the current token (and, for `goto` and table keys, the
  lookahead), and the shapes of the syntax-tree nodes each parse function builds.
*/
module Grammar {
  import opened Wrappers
  import opened LuaFeatures
  import opened CharClass
  import opened Tokens
  import opened Ast
  import opened Precedence
  import L = Lexemes

  // ---------------------------------------------------------------------------------------------------
  // Expressions

  /** `parsePrimaryExpression` takes the token: a literal, the keyword `function`, or a `{` (by value). */
  predicate StartsPrimary(t: Token) {
    IsLiteralKind(t.kind) || (t.kind.Keyword? && ValueIs(t, L.Function)) || ValueIs(t, L.LBrace)
  }

  /** `parsePrefixExpression` takes the token: a name or a `(` (by value). */
  predicate StartsPrefix(t: Token) {
    t.kind.Identifier? || ValueIs(t, L.LParen)
  }

  /** `parseSubExpression` finds an expression at the token: a unary operator, a primary or a prefix expression. */
  predicate StartsExpression(t: Token) {
    IsUnary(t) || StartsPrimary(t) || StartsPrefix(t)
  }

  /** `parsePrefixExpressionPart` continues a prefix expression at the token: `[ . : ( {` or a string. */
  predicate StartsSuffix(t: Token) {
    || (t.kind.Punctuator? && t.value in {Text(L.LBracket), Text(L.Dot), Text(L.Colon), Text(L.LParen), Text(L.LBrace)})
    || t.kind.StringLiteral?
  }

  /** `parseCallExpression` finds arguments at the token: `(` or `{` as punctuators, or a string. */
  predicate StartsArguments(t: Token) {
    (t.kind.Punctuator? && (ValueIs(t, L.LParen) || ValueIs(t, L.LBrace))) || t.kind.StringLiteral?
  }

  /** The precedence `parseSubExpression` gives the token: that of its text for punctuators and keywords, else 0. */
  function OperatorPrecedence(t: Token): (p: nat)
    ensures p <= 12
    ensures p > 0 ==> (t.kind.Punctuator? || t.kind.Keyword?) && t.value.Text?
  {
    if (t.kind.Punctuator? || t.kind.Keyword?) && t.value.Text? then BinaryPrecedence(t.value.text) else 0
  }

  /** The operator loop of a sub-expression parsed at `minPrecedence` goes on at this token. */
  predicate Continues(t: Token, minPrecedence: int) {
    t.value.Text? && (t.kind.Punctuator? || t.kind.Keyword?) && Binds(t.value.text, minPrecedence)
  }

  /** The test of the loop in `parseSubExpression` is `Continues`. */
  lemma ContinuesIff(t: Token, minPrecedence: int)
    ensures Continues(t, minPrecedence) <==> OperatorPrecedence(t) != 0 && OperatorPrecedence(t) > minPrecedence
  {
  }

  /** The three kinds of call a suffix chain can end with; `name:method args` is a call on a `:` member. */
  predicate IsMethodCallBase(n: Node) {
    n.data.MemberExpression? && n.data.indexer == L.Colon && n.data.member.data.Identifier?
  }

  /** The key the suffix loop of `parseAssignmentOrCallStatement` switches on: `"` for any string, else the value. */
  function SuffixKey(t: Token): (k: TokenValue)
  {
    if t.kind.StringLiteral? then Text([34]) else t.value
  }

  /** Every key the suffix loop acts on belongs to a token that continues a prefix expression. */
  lemma SuffixKeyStartsSuffix(t: Token, f: Features)
    requires Parsable(t, f)
    requires SuffixKey(t) in {Text(L.Dot), Text(L.LBracket), Text(L.Colon), Text(L.LParen), Text(L.LBrace), Text([34])}
    ensures StartsSuffix(t)
  {
    if t.kind.Keyword? || t.kind.Identifier? {
      assert false;
    }
  }

  // ---------------------------------------------------------------------------------------------------
  // Statements

  /** The statement forms `parseStatement` tells apart. */
  datatype StatementForm =
    | LabelForm | EmptyForm | LocalForm | IfForm | ReturnForm | FunctionForm | WhileForm | ForForm
    | RepeatForm | BreakForm | DoForm | GotoForm | AssignmentOrCallForm

  /**
    The dispatch of `parseStatement`: `::` as a punctuator, `;` by value when empty statements exist, the
    statement keywords, a contextual `goto` (the name `goto` followed by a name other than `goto`), and
    everything else is an assignment or a call.
  */
  function Dispatch(t: Token, lookahead: Token, f: Features): StatementForm {
    if t.kind.Punctuator? && ValueIs(t, L.DoubleColon) then LabelForm
    else if f.emptyStatement && ValueIs(t, L.Semicolon) then EmptyForm
    else if t.kind.Keyword? && ValueIs(t, L.Local) then LocalForm
    else if t.kind.Keyword? && ValueIs(t, L.If) then IfForm
    else if t.kind.Keyword? && ValueIs(t, L.Return) then ReturnForm
    else if t.kind.Keyword? && ValueIs(t, L.Function) then FunctionForm
    else if t.kind.Keyword? && ValueIs(t, L.While) then WhileForm
    else if t.kind.Keyword? && ValueIs(t, L.For) then ForForm
    else if t.kind.Keyword? && ValueIs(t, L.Repeat) then RepeatForm
    else if t.kind.Keyword? && ValueIs(t, L.Break) then BreakForm
    else if t.kind.Keyword? && ValueIs(t, L.Do) then DoForm
    else if t.kind.Keyword? && ValueIs(t, L.Goto) then GotoForm
    else if f.contextualGoto && t.kind.Identifier? && ValueIs(t, L.Goto)
      && lookahead.kind.Identifier? && !ValueIs(lookahead, L.Goto) then GotoForm
    else AssignmentOrCallForm
  }

  /** The node a statement form yields. */
  predicate Produces(form: StatementForm, n: Node) {
    match form
    case LabelForm => n.data.LabelStatement?
    case EmptyForm => false
    case LocalForm =>
      n.data.LocalStatement? || (n.data.FunctionDeclaration? && n.data.isLocalFunction && n.data.identifier.Some?)
    case IfForm => n.data.IfStatement?
    case ReturnForm => n.data.ReturnStatement?
    case FunctionForm => n.data.FunctionDeclaration? && !n.data.isLocalFunction && n.data.identifier.Some?
    case WhileForm => n.data.WhileStatement?
    case ForForm => n.data.ForNumericStatement? || n.data.ForGenericStatement?
    case RepeatForm => n.data.RepeatStatement?
    case BreakForm => n.data.BreakStatement?
    case DoForm => n.data.DoStatement?
    case GotoForm => n.data.GotoStatement?
    case AssignmentOrCallForm => n.data.AssignmentStatement? || n.data.CallStatement?
  }

  /**
    A `goto` statement starts at the keyword `goto` in Lua 5.2 and 5.3, and in LuaJIT (where `goto` is not a
    keyword) at the name `goto` followed by another name.
  */
  lemma GotoDispatch(t: Token, lookahead: Token, v: LuaVersion, e: Option<bool>)
    requires WellFormed(t, VersionFeatures(v, e))
    ensures var f := VersionFeatures(v, e);
      Dispatch(t, lookahead, f) == GotoForm <==>
        if v == LuaJIT then t.kind.Identifier? && ValueIs(t, L.Goto) && lookahead.kind.Identifier? && !ValueIs(lookahead, L.Goto)
        else v != Lua51 && t.kind.Keyword? && ValueIs(t, L.Goto)
  {
    var f := VersionFeatures(v, e);
    if t.kind.Keyword? && ValueIs(t, L.Goto) {
      assert IsKeyword(t.value.text, f);
    }
  }

  /**
    A token that closes a block (`else`, `elseif`, `end`, `until`, the end of input) starts no statement of its
    own and no expression: the dispatch falls through to the assignment-or-call form, which needs a prefix
    expression. So `parseBlock` must stop at such a token rather than hand it to `parseStatement`.
  */
  lemma BlockFollowStartsNothing(t: Token, lookahead: Token, f: Features)
    requires Parsable(t, f) && IsBlockFollow(t)
    ensures Dispatch(t, lookahead, f) == AssignmentOrCallForm
    ensures !StartsExpression(t) && !StartsPrefix(t)
  {
    if t.kind.Keyword? {
      // the four closing keywords are told apart from every statement keyword by length and first unit
      var w := t.value.text;
      assert ((|w| == 4 || |w| == 6 || |w| == 3) && w[0] == 101) || (|w| == 5 && w[0] == 117);
    }
  }

  /** A statement that must end its block: `return`, and `break` unless the dialect relaxes it. */
  predicate Terminal(n: Node, f: Features) {
    n.data.ReturnStatement? || (!f.relaxedBreak && n.data.BreakStatement?)
  }

  /** Only a `return` (or a strict `break`) token starts a statement that must end its block. */
  lemma TerminalDispatch(t: Token, lookahead: Token, f: Features, n: Node)
    requires Produces(Dispatch(t, lookahead, f), n) && Terminal(n, f)
    ensures ValueIs(t, L.Return) || (!f.relaxedBreak && ValueIs(t, L.Break))
  {
  }

  /**
    A statement that `parseBlock` takes at a `return` token (or a strict `break` token) ends the block: a name
    token never spells a reserved word, so the dispatch either picks the `return` or `break` form or reaches
    the assignment-or-call form at a token that starts no prefix expression, which fails.
  */
  lemma EndingStatement(t: Token, lookahead: Token, f: Features, n: Node)
    requires Parsable(t, f)
    requires ValueIs(t, L.Return) || (!f.relaxedBreak && ValueIs(t, L.Break))
    requires Produces(Dispatch(t, lookahead, f), n)
    requires Dispatch(t, lookahead, f) == AssignmentOrCallForm ==> StartsPrefix(t)
    ensures Terminal(n, f)
  {
  }

  /** A block as `parseBlock` builds it: a statement that must end its block is last. */
  predicate ProperBlock(ss: seq<Node>, f: Features) {
    forall i :: 0 <= i < |ss| - 1 ==> !Terminal(ss[i], f)
  }

  /** The `if` clauses: an `if` clause, then `elseif` clauses, then at most one `else` clause, last. */
  predicate IfClauses(cs: seq<Node>) {
    && |cs| >= 1 && cs[0].data.IfClause?
    && (forall i :: 0 < i < |cs| ==> cs[i].data.ElseifClause? || (i == |cs| - 1 && cs[i].data.ElseClause?))
  }

  /** The clauses of an `if` statement before its `else` part: an `if` clause, then `elseif` clauses, each body proper. */
  predicate OpenIfClauses(cs: seq<Node>, f: Features) {
    && |cs| >= 1 && cs[0].data.IfClause?
    && (forall i :: 0 < i < |cs| ==> cs[i].data.ElseifClause?)
    && (forall i :: 0 <= i < |cs| ==> ProperBlock(cs[i].data.body, f))
  }

  /** A parameter list: names, of which only the last may instead be `...`. */
  predicate ParameterList(ps: seq<Node>) {
    forall i :: 0 <= i < |ps| ==>
      ps[i].data.Identifier? || (i == |ps| - 1 && ps[i].data.Literal? && ps[i].data.kind == VarargLiteralNode)
  }

  /** A table field: `[k] = v`, `name = v` or a positional value. */
  predicate TableField(n: Node) {
    || n.data.TableKey?
    || (n.data.TableKeyString? && n.data.key.data.Identifier?)
    || n.data.TableValue?
  }

  /** `Name {'.' Name}`. */
  predicate DottedName(n: Node) {
    || n.data.Identifier?
    || (n.data.MemberExpression? && n.data.indexer == L.Dot && n.data.member.data.Identifier? && DottedName(n.data.base))
  }

  /** The name of a function statement: `Name {'.' Name} [':' Name]`. */
  predicate FunctionName(n: Node) {
    DottedName(n) || (IsMethodCallBase(n) && DottedName(n.data.base))
  }
}
