/**
  The syntax tree of `DefaultLuaAstBuilder`. Every builder that only packs its arguments is a constructor of
  `NodeData`; the two builders that decide something, `literal` and `binaryExpression`, are functions.
  A `Node` is the packed data plus the `loc` and `range` a completed location marker attaches to it.
*/
module Ast {
  import opened Wrappers
  import opened Tokens
  import L = Lexemes

  datatype Position = Position(line: int, column: int)
  datatype Location = Location(start: Position, end: Position)
  /** `range: [start, end]`. */
  datatype Range = Range(start: int, end: int)

  datatype Node = Node(data: NodeData, loc: Option<Location>, range: Option<Range>)

  /** The node kinds the source's `type` strings name. */
  datatype LiteralKind = StringLiteralNode | NumericLiteralNode | BooleanLiteralNode | NilLiteralNode | VarargLiteralNode

  datatype NodeData =
    | LabelStatement(labelName: Node)
    | BreakStatement
    | GotoStatement(labelName: Node)
    | ReturnStatement(arguments: seq<Node>)
    | IfStatement(clauses: seq<Node>)
    | IfClause(condition: Node, body: seq<Node>)
    | ElseifClause(condition: Node, body: seq<Node>)
    | ElseClause(body: seq<Node>)
    | WhileStatement(condition: Node, body: seq<Node>)
    | DoStatement(body: seq<Node>)
    | RepeatStatement(condition: Node, body: seq<Node>)
    | LocalStatement(variables: seq<Node>, init: seq<Node>)
    | AssignmentStatement(variables: seq<Node>, init: seq<Node>)
    | CallStatement(expression: Node)
    | FunctionDeclaration(identifier: Option<Node>, isLocalFunction: bool, parameters: seq<Node>, body: seq<Node>)
    | ForNumericStatement(variable: Node, start: Node, limit: Node, step: Option<Node>, body: seq<Node>)
    | ForGenericStatement(variables: seq<Node>, iterators: seq<Node>, body: seq<Node>)
    | Chunk(body: seq<Node>, comments: Option<seq<Node>>, globals: Option<seq<Node>>)
    | Identifier(name: seq<int>, isLocal: Option<bool>)
    | Literal(kind: LiteralKind, literal: TokenValue, raw: seq<int>)
    | TableKey(key: Node, value: Node)
    | TableKeyString(key: Node, value: Node)
    | TableValue(value: Node)
    | TableConstructorExpression(fields: seq<Node>)
    | BinaryExpression(operator: seq<int>, left: Node, right: Node)
    | LogicalExpression(operator: seq<int>, left: Node, right: Node)
    | UnaryExpression(operator: seq<int>, argument: Node)
    | MemberExpression(indexer: seq<int>, member: Node, base: Node)
    | IndexExpression(base: Node, index: Node)
    | CallExpression(base: Node, arguments: seq<Node>)
    | TableCallExpression(base: Node, table: Node)
    | StringCallExpression(base: Node, argument: Node)
    | Comment(text: seq<int>, raw: seq<int>)

  /** The token type a literal node kind stands for. */
  function LiteralTokenType(k: LiteralKind): TokenType {
    match k
    case StringLiteralNode => StringLiteral
    case NumericLiteralNode => NumericLiteral
    case BooleanLiteralNode => BooleanLiteral
    case NilLiteralNode => NilLiteral
    case VarargLiteralNode => VarargLiteral
  }

  /** The node kind `literal` picks for a token type; every type that is not one of the other four falls to vararg. */
  function LiteralKindOf(t: TokenType): (k: LiteralKind)
    ensures IsLiteralKind(t) ==> LiteralTokenType(k) == t
    ensures !IsLiteralKind(t) ==> k == VarargLiteralNode
  {
    if t == StringLiteral then StringLiteralNode
    else if t == NumericLiteral then NumericLiteralNode
    else if t == BooleanLiteral then BooleanLiteralNode
    else if t == NilLiteral then NilLiteralNode
    else VarargLiteralNode
  }

  /** `literal(type, value, raw)`. */
  function MakeLiteral(t: TokenType, value: TokenValue, raw: seq<int>): (n: NodeData)
    requires IsLiteralKind(t)
    ensures n.Literal? && LiteralTokenType(n.kind) == t && n.literal == value && n.raw == raw
  {
    Literal(LiteralKindOf(t), value, raw)
  }

  /** `binaryExpression`: a `LogicalExpression` exactly for `and` and `or`, a `BinaryExpression` otherwise. */
  function MakeBinary(operator: seq<int>, left: Node, right: Node): (n: NodeData)
    ensures n.LogicalExpression? <==> operator == L.And || operator == L.Or
    ensures n.BinaryExpression? <==> !(operator == L.And || operator == L.Or)
    ensures (n.BinaryExpression? || n.LogicalExpression?) && n.operator == operator && n.left == left && n.right == right
  {
    if operator == L.And || operator == L.Or then LogicalExpression(operator, left, right)
    else BinaryExpression(operator, left, right)
  }

  /** An expression that may stand on the left of `=`. */
  predicate IsAssignable(n: Node) {
    n.data.Identifier? || n.data.MemberExpression? || n.data.IndexExpression?
  }

  /** A call in any of its three argument forms. */
  predicate IsCall(n: Node) {
    n.data.CallExpression? || n.data.TableCallExpression? || n.data.StringCallExpression?
  }

  /** Assignable expressions and calls are disjoint; a call is never a target of an assignment. */
  lemma CallNotAssignable(n: Node)
    ensures IsCall(n) ==> !IsAssignable(n)
  {
  }

  /** The identifier node with the `isLocal` mark that `attachScope` sets. */
  function MarkLocal(n: Node, isLocal: bool): (r: Node)
    requires n.data.Identifier?
  {
    n.(data := n.data.(isLocal := Some(isLocal)))
  }
}
