/**
  The error catalogue `errors` and the two ways `raise` positions an error. The message text built from the
  catalogue is not kept: an error is its kind, with the payloads that carry meaning, and its position.
*/
module Errors {
  import opened Tokens

  datatype ErrorKind =
    | Unexpected(found: TokenType)            // `unexpected`: a token that cannot start or continue here
    | UnexpectedSymbol(symbol: seq<int>)      // `unexpected` with a character the lexer cannot start a token with
    | UnexpectedEOF
    | Expected(symbol: seq<int>)              // `expect` and a long bracket that does not open
    | ExpectedToken(what: seq<int>)           // `raiseUnexpectedToken`
    | UnfinishedString
    | MalformedNumber
    | DecimalEscapeTooLarge(value: nat)
    | InvalidEscape
    | HexadecimalDigitExpected
    | BraceExpected(brace: seq<int>)
    | TooLargeCodepoint
    | UnfinishedLongString(startLine: int)
    | UnfinishedLongComment(startLine: int)
    | AmbiguousSyntax
    | NoLoopToBreak
    | LabelAlreadyDefined(name: seq<int>, definedOn: int)
    | LabelNotVisible(name: seq<int>)
    | GotoJumpInLocalScope(name: seq<int>, localName: seq<int>)
    | CannotUseVararg

  /** `SyntaxError` with its `line`, `column` and `index` fields. */
  datatype SyntaxError = SyntaxError(kind: ErrorKind, line: int, column: int, index: int)

  /** `raise(token, ...)`: the error sits at the start of the token; this column counts from 0. */
  function RaiseAt(t: Token, kind: ErrorKind): (e: SyntaxError)
  {
    SyntaxError(kind, t.line, t.start - t.lineStart, t.start)
  }

  /** `raise(undefined, ...)`: the error sits at the lexer's cursor; this column counts from 1. */
  function RaiseHere(kind: ErrorKind, line: int, lineStart: int, index: int): (e: SyntaxError)
  {
    SyntaxError(kind, line, index - lineStart + 1, index)
  }

  /** `unexpected(token)`: the end of input has its own message, every other token names its type. */
  function UnexpectedToken(t: Token): (e: SyntaxError)
    ensures e.index == t.start && e.line == t.line
    ensures e.kind == UnexpectedEOF <==> t.kind == EOF
    ensures t.kind != EOF ==> e.kind == Unexpected(t.kind)
  {
    if t.kind == EOF then RaiseAt(t, UnexpectedEOF) else RaiseAt(t, Unexpected(t.kind))
  }
}
