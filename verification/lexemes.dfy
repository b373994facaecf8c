/**
  The code-unit spellings of Lua's reserved words, punctuators and the fixed texts the parser compares
  tokens with or reports. Each is a sequence display so that the verifier can tell any two apart.
*/
module Lexemes {
  // reserved words and literal words
  const And: seq<int> := [97, 110, 100]  // and
  const Break: seq<int> := [98, 114, 101, 97, 107]  // break
  const Do: seq<int> := [100, 111]  // do
  const Else: seq<int> := [101, 108, 115, 101]  // else
  const ElseIf: seq<int> := [101, 108, 115, 101, 105, 102]  // elseif
  const End: seq<int> := [101, 110, 100]  // end
  const False: seq<int> := [102, 97, 108, 115, 101]  // false
  const For: seq<int> := [102, 111, 114]  // for
  const Function: seq<int> := [102, 117, 110, 99, 116, 105, 111, 110]  // function
  const Goto: seq<int> := [103, 111, 116, 111]  // goto
  const If: seq<int> := [105, 102]  // if
  const In: seq<int> := [105, 110]  // in
  const Local: seq<int> := [108, 111, 99, 97, 108]  // local
  const Nil: seq<int> := [110, 105, 108]  // nil
  const Not: seq<int> := [110, 111, 116]  // not
  const Or: seq<int> := [111, 114]  // or
  const Repeat: seq<int> := [114, 101, 112, 101, 97, 116]  // repeat
  const Return: seq<int> := [114, 101, 116, 117, 114, 110]  // return
  const Then: seq<int> := [116, 104, 101, 110]  // then
  const True: seq<int> := [116, 114, 117, 101]  // true
  const Until: seq<int> := [117, 110, 116, 105, 108]  // until
  const While: seq<int> := [119, 104, 105, 108, 101]  // while

  // punctuators
  const Dot: seq<int> := [46]  // .
  const DotDot: seq<int> := [46, 46]  // ..
  const Ellipsis: seq<int> := [46, 46, 46]  // ...
  const Assign: seq<int> := [61]  // =
  const Eq: seq<int> := [61, 61]  // ==
  const Ge: seq<int> := [62, 61]  // >=
  const Gt: seq<int> := [62]  // >
  const Le: seq<int> := [60, 61]  // <=
  const Lt: seq<int> := [60]  // <
  const Ne: seq<int> := [126, 61]  // ~=
  const Colon: seq<int> := [58]  // :
  const DoubleColon: seq<int> := [58, 58]  // ::
  const LBracket: seq<int> := [91]  // [
  const RBracket: seq<int> := [93]  // ]
  const Slash: seq<int> := [47]  // /
  const DoubleSlash: seq<int> := [47, 47]  // //
  const Star: seq<int> := [42]  // *
  const Caret: seq<int> := [94]  // ^
  const Percent: seq<int> := [37]  // %
  const Comma: seq<int> := [44]  // ,
  const LBrace: seq<int> := [123]  // {
  const RBrace: seq<int> := [125]  // }
  const LParen: seq<int> := [40]  // (
  const RParen: seq<int> := [41]  // )
  const Semicolon: seq<int> := [59]  // ;
  const Hash: seq<int> := [35]  // #
  const Minus: seq<int> := [45]  // -
  const Plus: seq<int> := [43]  // +
  const Shr: seq<int> := [62, 62]  // >>
  const Shl: seq<int> := [60, 60]  // <<
  const Tilde: seq<int> := [126]  // ~
  const Amp: seq<int> := [38]  // &
  const Pipe: seq<int> := [124]  // |

  // fixed texts
  const EofText: seq<int> := [60, 101, 111, 102, 62]  // <eof>
  const NameExpected: seq<int> := [60, 110, 97, 109, 101, 62]  // <name>
  const ExpressionExpected: seq<int> := [60, 101, 120, 112, 114, 101, 115, 115, 105, 111, 110, 62]  // <expression>
  const ArgumentsExpected: seq<int> := [102, 117, 110, 99, 116, 105, 111, 110, 32, 97, 114, 103, 117, 109, 101, 110, 116, 115]  // function arguments
  const ParameterExpected: seq<int> := [60, 110, 97, 109, 101, 62, 32, 111, 114, 32, 39, 46, 46, 46, 39]  // <name> or '...'
  const Self: seq<int> := [115, 101, 108, 102]  // self
}
