# luaparse, modelled in Dafny

This project models `src/luaparse/luaparse.ts`, a port of the luaparse Lua parser to a Lua host. The parser reads
Lua 5.1, 5.2, 5.3 or LuaJIT source text and builds the syntax tree of `DefaultLuaAstBuilder`. The model covers:

- the character classes, the reserved words and the dialect feature sets (`versionFeatures`);
- the lexer: `lex` and every `scan*` and `read*` function, `consumeEOL` and `skipWhiteSpace`. The input is a
  sequence of code units, and a read past either end gives a "no character" value that no class accepts;
- string escapes, `encodeUTF8` and the three encoding modes (`pseudo-latin1`, `x-user-defined`, `none`);
- the token window (`nextLex`, `consume`, `expect`) and every `parse*` function of the recursive-descent parser;
- the scope tracker (`createScope`, `destroyScope`, `scopeIdentifierName`, `scopeIdentifier`, `attachScope`,
  `scopeHasName`) and the `globals` list;
- the two flow contexts, which check `break`, `goto` and labels: `FullFlowContext` and `LoopFlowContext`;
- the location-marker stack (`markLocation`, `pushLocation`, `finishNode`, `Marker.complete`, `Marker.bless`);
- the AST builder, as the datatype `Ast.NodeData` plus the two builders that decide something, `literal` and
  `binaryExpression`.

The module-level globals of the source are the fields of one class, `LuaParser.Parser`:

- the lexer cursor: `index`, `line`, `lineStart`, `tokenStart`;
- the token window: `previousToken`, `token`, `lookahead`;
- the parser state: `scopes`, `scopeDepth`, `globals`, `locations`, `comments`.

Its methods update these fields in place, as the source's functions do. A raised error becomes the `Failure`
of a `Result` (or the `Fail` of an `Outcome`). It carries the error kind, line, column and index the source's
`raise` computes. The flow contexts are two classes. The datatype `Flow.FlowContext` holds either one.

Files:

| file | contents |
|---|---|
| `wrappers.dfy` | `Option`, `Result`, `Outcome` |
| `text.dfy` | digit values and digit runs |
| `features.dfy` | the dialect feature flags and `versionFeatures` |
| `lexemes.dfy` | the code-unit spellings of keywords and punctuators |
| `chars.dfy` | the character classes, `isKeyword`, the punctuators each dialect has |
| `utf8.dfy` | `encodeUTF8`, and UTF-8 decoding as in section 3 of RFC 3629 |
| `encoding.dfy` | the encoding modes |
| `tokens.dfy` | tokens, `isUnary`, `isBlockFollow` |
| `errors.dfy` | error kinds and `raise` |
| `ast.dfy` | the syntax tree |
| `precedence.dfy` | `binaryPrecedence`, checked against section 3.4.8 of the Lua 5.3 manual |
| `markers.dfy` | location markers |
| `scopes.dfy` | scope and globals helpers |
| `flow.dfy` | the flow contexts |
| `grammar.dfy` | the parser's decisions on tokens, and the shapes of the nodes each parse function builds |
| `parser.dfy` | the parser object: the lexer, the token window, scopes, markers and every parse function |

Main properties proved:

- Each lexer method is specified against functions of the input: the end of a digit run, a line, a numeral, a
  long-bracket level, a string's plain text. These are the longest-match readings the source's loops compute.
- `Parse` returns a `Chunk` whose blocks are proper. A `return`, or a `break` in dialects without
  `relaxedBreak`, is always the last statement of its block. The comments and globals are attached exactly
  when their options ask for them, and the globals list never names a variable twice.
- `ParseChunk` ends with an empty location stack, which is the source's own sanity check.
- `ParseStatement` builds the node form its dispatch picks.
- `ParseAssignmentOrCallStatement` builds either a call statement whose expression is a call, or an assignment
  whose targets are all assignable.
- The `FullFlowContext` goto/label bookkeeping matches the functions `Unresolved` and `Deferred`, and a label
  partitions the pending gotos.
- `encodeUTF8` round-trips through RFC 3629 decoding, masked or not. A `\u{...}` escape of a non-zero code point
  gives the same units as its UTF-8 bytes written as `\ddd` escapes.
- The lexer's `parseInt` turns a digit run worth 0 into NaN (luaparse.ts:62-68): `\u{0}` and `\u{00}` give no
  units, `\0`, `\000` and `\x00` give whatever the host's `String.fromCharCode(NaN)` gives, and `0x0` has the
  value NaN. `ParsedInt` carries NaN through every escape and numeral reader.
- `binaryPrecedence` agrees with the manual's table. `ParseBinaryExpression` parses its right operand at
  `RightOperandPrecedence`, where only `^` and `..` bind again, so only they are right-associative.
  `ParseUnaryExpression` parses its operand at precedence 10, where only `^` binds.
- The lexer is specified against functions of the input: `lex` skips to `BlanksEnd` (blanks and whole comments),
  picks its scanner by the first unit (`ScannerAt`), and a quoted string, escapes included, reads as
  `QuotedString` says. Every well-formed `\u{...}` escape is accepted, and a non-zero byte written as `\ddd`
  reads back.

Every parse method states the stack discipline it keeps, through the predicate `Kept(pushes, scopeChange)`:

- `Kept(0, 0)`: the location stack and the scope stack are as they were on entry;
- `Kept(1, 0)`: the method popped one marker its caller pushed;
- `Kept(1, -1)`: it also closed one scope its caller opened.

Two more predicates recur:

- `Consumed()`: at least one token was taken;
- `FlowKept(fc)`: the flow context is as deep as before and allows `...` as before.

Termination of the mutually recursive parse methods uses `decreases Measure(), rank`:

- `Measure()` is the number of input units left, plus one while the lookahead is not the end of input;
- the rank orders methods that call each other without taking a token.

## Model

| member | source | states |
|---|---|---|
| LuaFeatures.VersionFeatures | src/luaparse/luaparse.ts:2780-2812 | Each flag holds for exactly the dialects the table lists: labels from 5.2, empty statements and relaxed `break` in 5.2/5.3, bitwise operators and `//` only in 5.3, contextual `goto` only in LuaJIT, `\u` escapes in 5.3 and LuaJIT; the `extendedIdentifiers` option decides that flag |
| CharClass.Keywords | src/luaparse/luaparse.ts:1483-1501 | `goto` is reserved exactly with labels and without contextual goto; `true`, `false` and `nil` are never keywords |
| CharClass.IsWhiteSpace | src/luaparse/luaparse.ts:1437-1439 | A space unit is an ASCII unit and never a line terminator |
| CharClass.IsLineTerminator | src/luaparse/luaparse.ts:1441-1443 | `\n` and `\r` are control units, so no name, digit or punctuator contains one |
| CharClass.IsIdentifierStart | src/luaparse/luaparse.ts:1460-1464 | Every unit that starts a name also continues one, and none is a decimal digit |
| CharClass.IsIdentifierPart | src/luaparse/luaparse.ts:1466-1476 | No unit that continues a name is a space, a line break, a quote, `-`, `.`, `[` or a backslash |
| CharClass.IsKeyword | src/luaparse/luaparse.ts:1483-1501 | The length-switched `isKeyword` accepts exactly the reserved-word list `Keywords` of section 3.1 of the Lua 5.2 manual |
| CharClass.GatedPunctuators | src/luaparse/luaparse.ts:832-883 | `::` exists only with labels, `//` only with integer division, `<< >> ~ & \|` only with bitwise operators; `...` is never a punctuator |
| CharClass.ClassesDisjoint | src/luaparse/luaparse.ts:1437-1476 | The classes `lex` dispatches on do not overlap (an identifier start is no digit, space or line break; a space is no line break), and "no character" is in no class |
| CharClass.PunctuatorLength | src/luaparse/luaparse.ts:806-883 | Every punctuator `lex` can scan has one or two units |
| CharClass.PunctuatorUnits | src/luaparse/luaparse.ts:806-883 | The one-unit punctuators are exactly the units the `lex` switch passes to `scanPunctuator` |
| Text.ParseHexPair | src/luaparse/luaparse.ts:1272-1277 | `parseInt` of the two digits of `\xXX`: NaN exactly for `00`, otherwise a byte value, as `ParseHex` of the pair gives |
| Text.DecValueZero | src/luaparse/luaparse.ts:62-68 | A decimal run is worth 0 exactly when all its digits are `0`, which is when `parseInt` gives NaN |
| Text.HexValueZero | src/luaparse/luaparse.ts:62-68 | A hexadecimal run is worth 0 exactly when all its digits are `0`, which is when `parseInt` gives NaN |
| Text.IsDecDigit | src/luaparse/luaparse.ts:1445-1447 | Every decimal digit is also a hexadecimal digit |
| Text.IsHexDigit | src/luaparse/luaparse.ts:1449-1453 | Hexadecimal digits are ASCII units from `0` up |
| Text.DecValueBound | src/luaparse/luaparse.ts:1237-1255 | n decimal digits are worth less than 10^n, so a `\ddd` of at most three digits is below 1000 |
| Text.HexValueBound | src/luaparse/luaparse.ts:1179-1192 | n hexadecimal digits are worth less than 16^n |
| Text.HexValueLeadingZero | src/luaparse/luaparse.ts:1176-1192 | A leading zero does not change a hexadecimal value, which is why the `\u{...}` reader may skip zeros |
| Text.RunEnd | src/luaparse/luaparse.ts:1100-1114 | The end of the longest digit run from a position: digits up to it, none at it |
| Text.LeadingZerosValue | src/luaparse/luaparse.ts:1176-1192 | Dropping any number of leading zeros keeps a hexadecimal value |
| Text.DigitsValue | src/luaparse/luaparse.ts:1176-1192 | Zeros followed by at most six digits are worth those digits, below 0x1000000 |
| Text.SixDigitsBound | src/luaparse/luaparse.ts:1179-1183 | At most six hexadecimal digits stay below 0x1000000 |
| Text.HexValueLowerBound | src/luaparse/luaparse.ts:1179-1183 | A run with a non-zero first digit is worth at least 16^(n-1) |
| Text.ManyDigitsValue | src/luaparse/luaparse.ts:1179-1183 | Seven or more significant digits are worth at least 0x1000000, so the source's digit limit and a value bound agree |
| Text.RunEndAtLeast | src/luaparse/luaparse.ts:1100-1114 | A digit run reaches at least as far as any digits known to follow its start |
| Text.EqualsRun | src/luaparse/luaparse.ts:1364 | The end of the run of `=` signs of a long bracket: `=` up to it, none at it |
| Text.ZerosEnd | src/luaparse/luaparse.ts:1176 | The end of the leading zeros: zeros up to it, none at it, and within the digit run |
| Text.DecimalSpelling | src/luaparse/luaparse.ts:1237-1255 | The three-digit spelling of a value below 1000 has that value |
| Utf8.DecodeUTF8 | src/luaparse/luaparse.ts:150-167 | The RFC 3629 decoder that is the partner of `encodeUTF8`: any value it accepts is below 0x110000 |
| Utf8.EncodeUTF8 | src/luaparse/luaparse.ts:150-172 | `encodeUTF8` emits at most four units, and none exactly from 0x110000 up |
| Utf8.Unmask | src/luaparse/luaparse.ts:212-219 | Removing the x-user-defined mask from a unit in 0xF700..0xF7FF gives a byte |
| Utf8.EncodeLength | src/luaparse/luaparse.ts:150-172 | `encodeUTF8` emits 1, 2, 3 or 4 units below 0x80, 0x800, 0x10000 and 0x110000, and none above |
| Utf8.EncodeShape | src/luaparse/luaparse.ts:150-167 | Without a mask the units are bytes: a 0xC0, 0xE0 or 0xF0 lead unit and 10xxxxxx continuation units |
| Utf8.DecodeEncode | src/luaparse/luaparse.ts:150-167 | With mask 0, RFC 3629 decoding of `encodeUTF8(cp)` gives back cp |
| Utf8.MaskedEncoding | src/luaparse/luaparse.ts:150-167 | With the 0xF700 mask a multi-unit sequence is the masked bytes, and unmasking then decoding gives cp back |
| Encoding.EncodeByte | src/luaparse/luaparse.ts:188-234 | `encodeByte`: no value or the `none` mode give nothing; pseudo-latin1 gives the byte itself; x-user-defined gives one unit that unmasks to the byte and is masked exactly when the byte is 0x80 or more |
| Encoding.EncodeCodepoint | src/luaparse/luaparse.ts:150-172 | The `encodeUTF8` of each mode on a `parseInt` result yields nothing exactly in the `none` mode or for NaN, which fails every range test and takes the warning branch (:168-171); otherwise one to four units |
| Encoding.EncodeParsedByte | src/luaparse/luaparse.ts:198-234 | `encodeByte` of a `parseInt` result: a byte value is encoded as `EncodeByte` says; NaN gives nothing in the `none` mode and otherwise the host's `String.fromCharCode(NaN)`, since NaN is not `undefined` and not 0x80 or more |
| Encoding.EncodeBytes | src/luaparse/luaparse.ts:188-234 | One unit per byte outside the `none` mode, nothing in it |
| Encoding.EncodeCodepointDecodes | src/luaparse/luaparse.ts:188-234 | The `encodeUTF8` of each mode yields nothing exactly in the `none` mode, and otherwise decodes back to the code point (after unmasking in x-user-defined) |
| Encoding.EncodeBytesUnitwise | src/luaparse/luaparse.ts:188-220 | Outside the `none` mode each byte becomes exactly one unit |
| Encoding.CodepointIsBytewise | src/luaparse/luaparse.ts:188-220 | Outside the `none` mode a `\u{...}` escape of a non-zero code point gives the same units as its UTF-8 bytes, all non-zero, written one by one as `\ddd` escapes |
| Tokens.ClassifyWord | src/luaparse/luaparse.ts:933-944 | An identifier run is a keyword iff it is reserved in the dialect; `true`/`false` are booleans carrying their truth value, `nil` has no value, anything else is a name |
| Tokens.UnaryPunctuators | src/luaparse/luaparse.ts:1503-1507 | `isUnary`: on the punctuators the lexer produces, the substring test accepts exactly `#`, `-` and `~` |
| Tokens.WellFormedParsable | src/luaparse/luaparse.ts:780-886 | What the lexer guarantees about its tokens implies what the parse functions rely on (no name spells `return` or `break`, `::` needs labels, …) |
| Errors.UnexpectedToken | src/luaparse/luaparse.ts:706-739 | `unexpected(token)` reports the end of input as such and names the type of any other token |
| Ast.LiteralKindOf | src/luaparse/luaparse.ts:453-470 | Each literal token type maps to the node kind of that type; any other falls through to vararg |
| Ast.MakeLiteral | src/luaparse/luaparse.ts:453-470 | A literal node keeps its token type, value and raw text |
| Ast.MakeBinary | src/luaparse/luaparse.ts:502-517 | A `LogicalExpression` exactly for `and` and `or`, a `BinaryExpression` otherwise, with the operator and both operands kept |
| Ast.CallNotAssignable | src/luaparse/luaparse.ts:2294-2307 | A call is never an assignable expression, so the two outcomes of the target loop exclude each other |
| Precedence.BinaryPrecedence | src/luaparse/luaparse.ts:2523-2566 | The dispatch on length and first unit gives a precedence of at most 12 |
| Precedence.PrecedenceMatchesManual | src/luaparse/luaparse.ts:2523-2566 | On every punctuator and keyword the lexer can produce, the dispatch agrees with the table of section 3.4.8 of the Lua 5.3 manual, and non-operators get 0 |
| Precedence.KeywordPrecedence | src/luaparse/luaparse.ts:2561-2564 | Among keywords only `and` (2) and `or` (1) are operators |
| Precedence.Associativity | src/luaparse/luaparse.ts:2612-2616 | `RightOperandPrecedence`, the precedence `ParseBinaryExpression` parses a right operand at, lets the same operator bind again inside that operand exactly for `^` and `..`: only they are right-associative |
| Precedence.UnaryBindsTighterExceptPower | src/luaparse/luaparse.ts:2586-2592 | At the unary precedence 10 that `ParseUnaryExpression` parses its operand at, only `^` binds, so `-x^y` negates the power and `-x*y` multiplies the negation |
| Markers.Complete | src/luaparse/luaparse.ts:1616-1624 | `complete` keeps the start and takes the end from the previous token: its end index, its last line for a multi-line string, and the column of its end within that line; without a previous token nothing changes |
| Markers.SingleLineEnd | src/luaparse/luaparse.ts:1616-1624 | A node ending with a one-line token ends on that token's line, at the column of its end |
| Scopes.AddName | src/luaparse/luaparse.ts:1550-1554 | A name joins a scope unless already there; the scope then holds exactly the old names and the new one |
| Scopes.AddNameIdempotent | src/luaparse/luaparse.ts:1550-1554 | Declaring a name twice is declaring it once |
| Scopes.AddNameKeepsNoDuplicates | src/luaparse/luaparse.ts:1550-1554 | A scope built with `scopeIdentifierName` never lists a name twice |
| Scopes.IndexOfObject | src/luaparse/luaparse.ts:616-621 | `indexOfObject` finds the first entry with the name, or -1 exactly when none has it |
| Scopes.AddGlobalKeepsDistinct | src/luaparse/luaparse.ts:1566-1570 | `attachScope` keeps `globals` free of repeated names, and afterwards a global's name is listed and no other name is added |
| Flow.Unresolved | src/luaparse/luaparse.ts:1752-1770 | The pending gotos a label leaves pending are exactly those it does not resolve |
| Flow.Deferred | src/luaparse/luaparse.ts:1752-1770 | The gotos a label defers are exactly those it resolves that were seen with fewer locals in the label's scope |
| Flow.SplitPending | src/luaparse/luaparse.ts:1752-1770 | The loop of `addLabel` keeps exactly `Unresolved` and collects exactly `Deferred` |
| Flow.LabelPartitionsGotos | src/luaparse/luaparse.ts:1752-1770 | Every pending goto is either still pending or resolved by the label, never both and never lost |
| Flow.FullFlowContext.constructor | src/luaparse/luaparse.ts:1695-1698 | A new full context has no scopes, no pending gotos and does not allow `...` |
| Flow.FullFlowContext.IsInLoop | src/luaparse/luaparse.ts:1700-1706 | True iff some open scope is a loop body |
| Flow.FullFlowContext.PushScope | src/luaparse/luaparse.ts:1708-1716 | Pushes an empty scope with the loop flag; pending gotos unchanged |
| Flow.FullFlowContext.PopScope | src/luaparse/luaparse.ts:1718-1726 | Fails iff some pending goto has nowhere left to go, with `labelNotVisible` at the first such goto; otherwise drops the scope and moves every pending goto that reached this depth out by one level |
| Flow.FullFlowContext.AddGoto | src/luaparse/luaparse.ts:1728-1743 | A goto whose label is already visible is settled; any other becomes pending at the current depth with the local counts snapshot |
| Flow.FullFlowContext.AddLabel | src/luaparse/luaparse.ts:1745-1773 | Fails iff the label is already defined in the current scope (`labelAlreadyDefined`, naming the earlier line); otherwise records it, keeps the unresolved gotos pending and defers the ones that jump over a later local |
| Flow.FullFlowContext.AddLocal | src/luaparse/luaparse.ts:1775-1780 | The current scope gains the local; nothing else changes |
| Flow.FullFlowContext.RaiseDeferredErrors | src/luaparse/luaparse.ts:1786-1801 | Fails iff the current scope has a deferred goto, with `gotoJumpInLocalScope` at the first one, naming the first local it jumps over |
| Flow.LoopPushPopRestores | src/luaparse/luaparse.ts:1816-1830 | A `pushScope`/`popScope` pair restores `level` and `loopLevels`, loop or not |
| Flow.LoopPushKeepsState | src/luaparse/luaparse.ts:1816-1821 | Pushing keeps the loop levels increasing and within the level, and a loop body makes `isInLoop` true |
| Flow.LoopPopKeepsState | src/luaparse/luaparse.ts:1823-1830 | Popping a pushed scope keeps the loop levels increasing and within the level |
| Flow.LoopFlowContext.constructor | src/luaparse/luaparse.ts:1810 | A new loop context is at level 0 with no loop levels |
| Flow.LoopFlowContext.PushScope | src/luaparse/luaparse.ts:1816-1821 | One level deeper; a loop body records its level |
| Flow.LoopFlowContext.PopScope | src/luaparse/luaparse.ts:1823-1830 | One level up; the innermost loop level goes when it is the current one |
| Flow.MakeFlowContext | src/luaparse/luaparse.ts:1844-1846 | A fresh full context exactly when the dialect has labels, else a loop-only one, with no scope open |
| Flow.FlowIsInLoop | src/luaparse/luaparse.ts:1700-1706 | `isInLoop` of either context: some enclosing scope is a loop body |
| Flow.FlowPushScope | src/luaparse/luaparse.ts:1708-1716 | Either context is one scope deeper, keeps its vararg flag, and is inside a loop afterwards iff it was before or the new scope is a loop body; the full one gains an empty scope and keeps its pending gotos, the loop-only one records a loop level as `LoopPushed` says |
| Flow.FlowPopScope | src/luaparse/luaparse.ts:1718-1726 | The loop-only context never fails and drops its level as `LoopPopped` says; the full one fails iff some pending goto has no visible label, with `labelNotVisible` at the first, else drops its scope and lowers the gotos; leaving an inner scope never fails |
| Flow.FlowAddLocal | src/luaparse/luaparse.ts:1775-1780 | The full context's current scope gains the local and its pending gotos stay; the loop-only context is unchanged |
| Flow.FlowRaiseDeferredErrors | src/luaparse/luaparse.ts:1786-1801 | The loop-only context never fails; the full one fails iff its current scope has a deferred goto, with `gotoJumpInLocalScope` at the first, naming the first local it jumps over |
| Flow.FlowAllowVararg | src/luaparse/luaparse.ts:2390 | After a `...` parameter the function allows `...`; the depth is unchanged |
| Grammar.OperatorPrecedence | src/luaparse/luaparse.ts:2609-2610 | Only a punctuator or keyword token has a precedence, at most 12 |
| Grammar.ContinuesIff | src/luaparse/luaparse.ts:2607-2612 | The loop of `parseSubExpression` goes on exactly at an operator whose precedence is non-zero and above the minimum |
| Grammar.SuffixKeyStartsSuffix | src/luaparse/luaparse.ts:2293-2312 | Every key the suffix switch acts on belongs to a token `parsePrefixExpressionPart` takes |
| Grammar.GotoDispatch | src/luaparse/luaparse.ts:1952-1967 | A `goto` statement starts at the keyword `goto` in 5.2 and 5.3, never in 5.1, and in LuaJIT at the name `goto` followed by another name |
| Grammar.TerminalDispatch | src/luaparse/luaparse.ts:1883 | Only a `return` token, or a `break` token in strict dialects, yields a statement that must end its block |
| Grammar.EndingStatement | src/luaparse/luaparse.ts:1883-1886 | A statement taken at a `return` (or strict `break`) token is a return (or break) statement, so `parseBlock` rightly stops after it |
| Grammar.BlockFollowStartsNothing | src/luaparse/luaparse.ts:1510-1522 | `isBlockFollow`: a closing keyword or the end of input starts no expression and no prefix, and `Dispatch` sends it to the assignment-or-call form, so `parseBlock` must stop there |
| LuaParser.EolLength | src/luaparse/luaparse.ts:893-907 | Zero units off a line terminator, two for `\r\n` or `\n\r`, else one |
| LuaParser.SimpleEscape | src/luaparse/luaparse.ts:1207-1227 | Exactly the letters `a b f n r t v` have a named escape |
| LuaParser.StringStop | src/luaparse/luaparse.ts:991-999 | Where a quoted string stops being plain text: the first delimiter, backslash or line break, or the end of input |
| LuaParser.LineEnd | src/luaparse/luaparse.ts:1322-1326 | The end of a line: the first line terminator from a position, or the end of input |
| LuaParser.Parse | src/luaparse/luaparse.ts:2838-2902 | The result is a chunk whose blocks are proper; comments are attached iff the `comments` option is on, globals iff `scope` is, and the globals never repeat a name |
| LuaParser.Parser.constructor | src/luaparse/luaparse.ts:2845-2857 | The rewind of `parse`: cursor at 0 on line 1, no tokens, one empty scope, no globals or markers, and the host's `String.fromCharCode(NaN)` units as given |
| LuaParser.Parser.ConsumeEOL | src/luaparse/luaparse.ts:893-907 | Succeeds iff at a line terminator; then moves past `\r\n`, `\n\r` or one terminator, adds exactly one line and starts the line after it; otherwise nothing moves |
| LuaParser.Parser.BlankRunEnd | src/luaparse/luaparse.ts:909-918 | The first unit from a position that is no space or line break: every unit before it is one |
| LuaParser.Parser.SkipBlankStops | src/luaparse/luaparse.ts:909-918 | `skipWhiteSpace` from a position stops at `BlankRunEnd`; the line start stays when no line was added and otherwise follows a line terminator inside the run |
| LuaParser.Parser.SkipBlank | src/luaparse/luaparse.ts:909-918 | `skipWhiteSpace` never moves the cursor back or past the input, and the line number only goes up |
| LuaParser.Parser.SkipWhiteSpace | src/luaparse/luaparse.ts:909-918 | The cursor, line and line start end where `SkipBlank` says: past exactly the spaces and line breaks, one more line per break |
| LuaParser.Parser.ScanIdentifierOrKeyword | src/luaparse/luaparse.ts:925-953 | The token is the longest run of identifier units, classified by `ClassifyWord` |
| LuaParser.Parser.ScanPunctuator | src/luaparse/luaparse.ts:959-968 | The cursor moves past the punctuator, which becomes the token |
| LuaParser.Parser.ScanVarargLiteral | src/luaparse/luaparse.ts:971-980 | Three units become the vararg token |
| LuaParser.Parser.ReadCodepointDigits | src/luaparse/luaparse.ts:1176-1183 | The zeros are skipped to `ZerosEnd`; too many digits are reported exactly when more than six significant digits follow, with the cursor after the seventh; otherwise the cursor is at the run's end |
| LuaParser.Parser.SkipZeros | src/luaparse/luaparse.ts:1176 | Only zeros are skipped, and the cursor stops at a non-zero |
| LuaParser.Parser.ReadSignificantDigits | src/luaparse/luaparse.ts:1179-1183 | The digits after the zeros: the cursor stops after the seventh exactly when there are more than six, where the source raises, else at the run's end |
| LuaParser.Parser.SignificantDigits | src/luaparse/luaparse.ts:1176-1183 | A digit run has more than six significant digits exactly when it is worth 0x1000000 or more, and its leading zeros do not change its value |
| LuaParser.Parser.UnicodeEscapeAt | src/luaparse/luaparse.ts:1168-1200 | A success reads a well-formed `u{digits}` of at least four units on one line, and yields the mode's encoding of `parseInt` of its digits (nothing when they are all `0`) |
| LuaParser.Parser.BracedCodepointAt | src/luaparse/luaparse.ts:1176-1199 | A success after `{` ends at least two units on (a digit and the `}`), on the same line |
| LuaParser.Parser.CodepointCloseAt | src/luaparse/luaparse.ts:1185-1199 | A success needs `}` right after the digits and a `parseInt` result that is NaN or at most U+10FFFF, and ends after the `}` |
| LuaParser.Parser.UnicodeEscapeComplete | src/luaparse/luaparse.ts:1168-1200 | Every well-formed `\u{...}` escape succeeds, with the mode's encoding of `parseInt` of its digits, ending after its `}`; it yields no units exactly in the `none` mode or when every digit is `0` |
| LuaParser.Parser.ZeroRunIsNaN | src/luaparse/luaparse.ts:62-68 | A digit run of the input is all `0` units exactly when `parseInt` of it is NaN, in either base |
| LuaParser.Parser.UnicodeEscapeTooLarge | src/luaparse/luaparse.ts:1179-1197 | Seven or more significant digits, or a closed value above U+10FFFF, raise `tooLargeCodepoint` |
| LuaParser.Parser.UnicodeEscapeUnclosed | src/luaparse/luaparse.ts:1186-1189 | Digits not followed by `}`: a quote there raises `'}' expected` at the quote, any other unit raises `hexadecimalDigitExpected` after it |
| LuaParser.Parser.ReadUnicodeEscapeSequence | src/luaparse/luaparse.ts:1168-1200 | Agrees with `UnicodeEscapeAt`: the same units or error, and the same cursor |
| LuaParser.Parser.ReadBracedCodepoint | src/luaparse/luaparse.ts:1176-1199 | Agrees with `BracedCodepointAt`: the same units or error, and the same cursor |
| LuaParser.Parser.CloseCodepoint | src/luaparse/luaparse.ts:1185-1199 | Agrees with `CodepointCloseAt`: the same units or error, and the same cursor |
| LuaParser.Parser.DecimalEscapeEnd | src/luaparse/luaparse.ts:1237-1250 | A `\ddd` takes at most three decimal digits |
| LuaParser.Parser.ReadDecimalEscape | src/luaparse/luaparse.ts:1237-1255 | At most three digits; a `parseInt` value above 255 raises `decimalEscapeTooLarge`, a smaller one is encoded as a byte, and an all-zero run (NaN) goes to `encodeByte` as NaN |
| LuaParser.Parser.EscapeAt | src/luaparse/luaparse.ts:1203-1295 | An escape ends after at least the unit after the backslash, and at most one past the input, where it yields nothing; the line only goes up, and the line start moves only with a new line |
| LuaParser.Parser.DecimalEscapeRoundTrip | src/luaparse/luaparse.ts:1237-1255 | A non-zero byte written as its three-digit `\ddd` spelling reads back as that byte in the chosen encoding, and `\000` as the host's `String.fromCharCode(NaN)` (nothing in the `none` mode), ending after the third digit |
| LuaParser.Parser.ReadEscapeSequence | src/luaparse/luaparse.ts:1203-1295 | Agrees with `EscapeAt`: the same units or error, and the same cursor, line and line start |
| LuaParser.Parser.ReadHexEscape | src/luaparse/luaparse.ts:1265-1280 | `\x` needs exactly two hex digits, whose `parseInt` goes to `encodeByte` (NaN for `00`); else `hexadecimalDigitExpected` |
| LuaParser.Parser.ReadOtherEscape | src/luaparse/luaparse.ts:1265-1294 | For `\x`, `\u`, a quote, a backslash or any other unit, agrees with `EscapeAt` |
| LuaParser.Parser.OpenLevel | src/luaparse/luaparse.ts:1364 | A long bracket's level is the number of `=` signs after its `[` |
| LuaParser.Parser.ContentStart | src/luaparse/luaparse.ts:1368-1373 | The content starts after the opener and at most one line break |
| LuaParser.Parser.FirstCloser | src/luaparse/luaparse.ts:1374-1397 | The first closer of a level from a position: a closer, none before it; none exactly when no closer follows |
| LuaParser.Parser.FirstCloserIs | src/luaparse/luaparse.ts:1374-1397 | A closer with no closer of its level before it is the first one |
| LuaParser.Parser.ReadLongString | src/luaparse/luaparse.ts:1353-1401 | Without a second `[` it reads one unit and answers none; otherwise it fails iff no closer of the same level follows, with the error carrying the opening line, and succeeds with the content up to the first such closer (`FirstCloser`), the cursor past it |
| LuaParser.Parser.ReadLongContent | src/luaparse/luaparse.ts:1374-1397 | The scanning loop stops at the first closer of the level, or reports that none follows |
| LuaParser.Parser.SkipLineBreaks | src/luaparse/luaparse.ts:1377 | Line breaks are consumed and none starts a closer |
| LuaParser.Parser.ClosesAt | src/luaparse/luaparse.ts:1383-1389 | After `]`, the terminator test holds iff `level` `=` signs and `]` follow |
| LuaParser.Parser.ScanComment | src/luaparse/luaparse.ts:1304-1347 | Fails with `unfinishedLongComment` exactly when `CommentEnd` after the dashes finds a long bracket that never closes; otherwise the cursor is at `CommentEnd`, a line comment keeps the line, and with the `comments` option exactly one node holding `CommentText` is appended |
| LuaParser.Parser.CommentEnd | src/luaparse/luaparse.ts:1304-1328 | Where a comment body after `--` ends: past the first closer of its long bracket, none when that never closes, else the end of the line; never before it starts |
| LuaParser.Parser.ReadCommentText | src/luaparse/luaparse.ts:1308-1328 | Succeeds iff `CommentEnd` exists, with the cursor there; the text is then `CommentText`: the long bracket's content up to its first closer, or the rest of the line |
| LuaParser.Parser.RecordComment | src/luaparse/luaparse.ts:1330-1346 | The comment is appended exactly with the `comments` option |
| LuaParser.Parser.SkipToLineEnd | src/luaparse/luaparse.ts:1323-1326 | The cursor moves to the end of the line |
| LuaParser.Parser.CommentNode | src/luaparse/luaparse.ts:1331-1343 | A comment node holds the text and the raw source, with a location and a range exactly when the options ask |
| LuaParser.Parser.ScanLongStringLiteral | src/luaparse/luaparse.ts:1032-1048 | No long bracket raises `expected [`; with one, it fails with `unfinishedLongString` iff `FirstCloser` finds no closer, and otherwise gives a string token of the content up to the first closer, from the opening line to the closer's, with the cursor past the closer |
| LuaParser.Parser.AppendEscape | src/luaparse/luaparse.ts:1000-1009 | Succeeds iff `EscapeAt` does, with its error; on success the plain text before the backslash and then the escape's units are appended, and the cursor and lines are where `EscapeAt` ends |
| LuaParser.Parser.QuotedString | src/luaparse/luaparse.ts:983-1025 | A quoted string read to its delimiter ends right after the delimiter; its line only goes up, and the line start moves only when a line was added |
| LuaParser.Parser.QuotedEscape | src/luaparse/luaparse.ts:1000-1009 | The same, for the rest of a string from a backslash |
| LuaParser.Parser.PlainQuotedString | src/luaparse/luaparse.ts:991-1013 | Without a backslash before the stop, a string closed by its delimiter reads as the text up to it, on one line; a line break or the end of input first raises `unfinishedString` after it |
| LuaParser.Parser.ReadQuotedString | src/luaparse/luaparse.ts:990-1013 | The loop agrees with `QuotedString` from the cursor: the same value or error, cursor and lines |
| LuaParser.Parser.ScanStringLiteral | src/luaparse/luaparse.ts:983-1025 | Agrees with `QuotedString` from after the opening quote: it succeeds iff that does, with the same error, and the token holds its value, starts on the opening line and records the line it ends on |
| LuaParser.Parser.SkipDigits | src/luaparse/luaparse.ts:1100-1101 | The cursor moves past the digit run |
| LuaParser.Parser.MantissaEnd | src/luaparse/luaparse.ts:1100-1114 | A numeral's digits, then an optional point and more digits |
| LuaParser.Parser.ExponentDigits | src/luaparse/luaparse.ts:1117-1127 | An exponent's digits start after its mark and an optional sign |
| LuaParser.Parser.ExponentEnd | src/luaparse/luaparse.ts:1117-1135 | No exponent without a mark; with one, the mark, an optional sign and at least one digit, or a malformed exponent |
| LuaParser.Parser.NumeralEnd | src/luaparse/luaparse.ts:1084-1166 | A numeral's extent is its mantissa and then its optional exponent |
| LuaParser.Parser.ReadExponent | src/luaparse/luaparse.ts:1117-1135 | The cursor ends where `ExponentEnd` says; a mark without digits raises `malformedNumber` there |
| LuaParser.Parser.ReadMantissa | src/luaparse/luaparse.ts:1100-1114 | The cursor ends at the mantissa's end, and a fraction is reported iff digits follow the point |
| LuaParser.Parser.ReadHexLiteral | src/luaparse/luaparse.ts:1084-1138 | `0x` without a digit raises `malformedNumber`; otherwise the numeral's extent as `NumeralEnd` says, with the value `HexLiteralValue` gives |
| LuaParser.Parser.HexLiteralNaN | src/luaparse/luaparse.ts:1095-1137 | A hexadecimal numeral's value is NaN exactly when its integer run, a non-empty fraction run or its exponent run is all zeros; otherwise a plain digit run keeps its positive `parseInt` value, and any other numeral has no exact value |
| LuaParser.Parser.ReadDecLiteral | src/luaparse/luaparse.ts:1145-1166 | The numeral's extent as `NumeralEnd` says, or `malformedNumber` |
| LuaParser.Parser.ScanNumericLiteral | src/luaparse/luaparse.ts:1057-1071 | `0x`/`0X` picks a hexadecimal numeral, else decimal; the token spans the numeral's extent, and holds `HexLiteralValue` for a hexadecimal numeral and no value for a decimal one |
| LuaParser.Parser.LongestPunctuator | src/luaparse/luaparse.ts:832-883 | The dialect's punctuator starting at a position that no longer one beats, or none |
| LuaParser.Parser.ScanOperator | src/luaparse/luaparse.ts:823-885 | `...` is a vararg; otherwise the longest punctuator of the dialect, or `unexpectedSymbol` when none starts there |
| LuaParser.Parser.PickPunctuator | src/luaparse/luaparse.ts:823-883 | The feature-gated switch picks exactly the longest punctuator |
| LuaParser.Parser.ScannerAt | src/luaparse/luaparse.ts:799-885 | The scanner `lex` picks by the first unit: names exactly at an identifier start; a quoted string at a quote; a number at a digit or `.`; a long string at `[` |
| LuaParser.Parser.Lex | src/luaparse/luaparse.ts:780-886 | Fails with `unfinishedLongComment` iff `BlanksEnd` finds a long comment left open; at the end of input after blanks and comments `<eof>`, again and again with nothing changed; otherwise a token that starts at `BlanksEnd`, of a kind the scanner `ScannerAt` picks for its first unit, ending at the cursor |
| LuaParser.Parser.BlanksEnd | src/luaparse/luaparse.ts:781-788 | Where the skip of blanks and comments ends: not before its start, at a unit that is no blank and starts no `--`, or none when a long comment is left open |
| LuaParser.Parser.CommentsEnd | src/luaparse/luaparse.ts:781-788 | From a unit that is no blank: past each comment and the blanks after it |
| LuaParser.Parser.SkipComment | src/luaparse/luaparse.ts:781-788 | One comment and the blanks after it: the cursor moves on, and `CommentsEnd` from it is the same as before, or the comment is left open and fails |
| LuaParser.Parser.SkipBlanksAndComments | src/luaparse/luaparse.ts:781-788 | Succeeds iff `BlanksEnd` exists, and then stops exactly there: past blanks and whole comments only; otherwise fails with `unfinishedLongComment` |
| LuaParser.Parser.ReadToken | src/luaparse/luaparse.ts:799-885 | A token starting at the cursor, of a kind the scanner `ScannerAt` picks: a name run classified by `ClassifyWord` that stops at a unit no name continues; a quoted string that agrees with `QuotedString`; numbers, long strings and operators as `NumberOrOperator` says |
| LuaParser.Parser.ReadNumberOrOperator | src/luaparse/luaparse.ts:811-885 | A numeral whose only error is `malformedNumber`; a long string iff a long bracket opens and closes here; `...` as a vararg; otherwise the longest punctuator of the dialect, or `unexpectedSymbol` naming the unit |
| LuaParser.Parser.NextLex | src/luaparse/luaparse.ts:1411-1415 | The window shifts by one and the lookahead is the next token, as `LexLookahead` reads it; at the end of input nothing else changes |
| LuaParser.Parser.LexLookahead | src/luaparse/luaparse.ts:1411-1415 | The lookahead becomes the next token, parsable and within the input; at the end of input `<eof>` with nothing else changed |
| LuaParser.Parser.Consume | src/luaparse/luaparse.ts:1421-1427 | Takes the token iff its value matches, whatever its type |
| LuaParser.Parser.Expect | src/luaparse/luaparse.ts:1430-1433 | Takes a matching token, else raises `expected` at it |
| LuaParser.Parser.CreateScope | src/luaparse/luaparse.ts:1536-1540 | Pushes a copy of the current scope, keeping `scopeDepth == \|scopes\| - 1` |
| LuaParser.Parser.DestroyScope | src/luaparse/luaparse.ts:1543-1547 | Pops the current scope, keeping `scopeDepth == \|scopes\| - 1` |
| LuaParser.Parser.ScopeIdentifierName | src/luaparse/luaparse.ts:1550-1554 | The name joins the current scope by `AddName` |
| LuaParser.Parser.ScopeHasName | src/luaparse/luaparse.ts:1573-1575 | True iff the current scope declares the name |
| LuaParser.Parser.AttachScope | src/luaparse/luaparse.ts:1566-1570 | Marks the identifier and updates `globals` by `AddGlobal`, keeping it free of repeated names |
| LuaParser.Parser.ScopeIdentifier | src/luaparse/luaparse.ts:1557-1560 | The name joins the current scope and the identifier is marked local; `globals` unchanged |
| LuaParser.Parser.MarkLocation | src/luaparse/luaparse.ts:1647-1649 | With locations tracked a marker for the current token is pushed, else nothing |
| LuaParser.Parser.PushLocation | src/luaparse/luaparse.ts:1652-1654 | With locations tracked the marker is pushed, else nothing |
| LuaParser.Parser.FinishNode | src/luaparse/luaparse.ts:595-606 | With locations tracked and a marker present the top marker is popped, completed and attached; otherwise the node has no location |
| LuaParser.Parser.ParseIdentifier | src/luaparse/luaparse.ts:2347-2355 | A name token becomes an identifier node; anything else raises `expected <name>` |
| LuaParser.Parser.ExpectAndFinish | src/luaparse/luaparse.ts:2482-2483 | The closing token is expected, then the node is finished |
| LuaParser.Parser.PushAndTake | src/luaparse/luaparse.ts:2761-2763 | The marker is pushed and one token taken |
| LuaParser.Parser.ParseExpression | src/luaparse/luaparse.ts:2501-2504 | An expression iff one starts at the token; otherwise nothing, with nothing changed |
| LuaParser.Parser.ParseExpectedExpression | src/luaparse/luaparse.ts:2508-2513 | An expression, or `expected <expression>` at a token where none starts |
| LuaParser.Parser.ParseExpressionList | src/luaparse/luaparse.ts:2177-2180 | At least one expression, and no `,` is left |
| LuaParser.Parser.ParseExpressionListTail | src/luaparse/luaparse.ts:2060-2063 | The list so far is kept and extended until no `,` follows |
| LuaParser.Parser.ParseSubExpression | src/luaparse/luaparse.ts:2577-2624 | An expression iff one starts at the token, and it stops only at a token that does not continue it at this precedence |
| LuaParser.Parser.ParseOperand | src/luaparse/luaparse.ts:2583-2603 | A unary operator gives a unary expression with that operator, whose operand loop is finished at precedence 10; a literal, `function` or `{` gives that primary expression; a name or `(` gives a prefix expression with no suffix left; nothing iff no expression starts here |
| LuaParser.Parser.ParseUnaryExpression | src/luaparse/luaparse.ts:2586-2592 | A unary expression whose operator is the token's; the operand is parsed at precedence 10, so what follows does not continue it there, and in particular is never `^` |
| LuaParser.Parser.ParseBinaryExpression | src/luaparse/luaparse.ts:2607-2621 | A binary or logical expression, by `MakeBinary`, with the token's operator and the given left operand; its right operand is parsed at `RightOperandPrecedence`, so what follows does not continue it there, and the same operator can follow only when it is left-associative |
| LuaParser.Parser.ParsePrimaryExpression | src/luaparse/luaparse.ts:2743-2775 | `...` outside a vararg function raises `cannotUseVararg`; a literal keeps its type, value and raw text; `function` gives an anonymous function; `{` a table; nothing else starts one |
| LuaParser.Parser.ParseLiteral | src/luaparse/luaparse.ts:2760-2764 | A literal node with the token's type, value and source text |
| LuaParser.Parser.ParseFunctionExpression | src/luaparse/luaparse.ts:2765-2769 | An anonymous, non-local function with a proper parameter list |
| LuaParser.Parser.ParseMarkedTable | src/luaparse/luaparse.ts:2770-2772 | A table constructor whose fields are all table fields |
| LuaParser.Parser.ParsePrefixExpression | src/luaparse/luaparse.ts:2674-2702 | A prefix expression iff a name or `(` starts here, and no suffix follows it |
| LuaParser.Parser.ParsePrefixBase | src/luaparse/luaparse.ts:2681-2692 | A name (as that identifier) or a parenthesized expression, iff one starts here |
| LuaParser.Parser.ParseNameReference | src/luaparse/luaparse.ts:2682-2686 | With scopes tracked the name is local exactly when the current scope declares it, and a global joins `globals` |
| LuaParser.Parser.ParsePrefixExpressionPart | src/luaparse/luaparse.ts:2632-2672 | A suffix iff the token starts one: `[` an index, `.` a member, `:` a method call, `(`, `{` or a string a call, each on the base |
| LuaParser.Parser.ParseIndexExpression | src/luaparse/luaparse.ts:2641-2646 | An index expression on the base |
| LuaParser.Parser.ParseMemberExpression | src/luaparse/luaparse.ts:2647-2656 | A member expression with the indexer and a name, on the base |
| LuaParser.Parser.ParseMethodCall | src/luaparse/luaparse.ts:2652-2660 | A call whose callee is the `:` member of the base |
| LuaParser.Parser.ParseCallOn | src/luaparse/luaparse.ts:2661-2668 | A call on the base, or `expected function arguments` |
| LuaParser.Parser.ParseCallExpression | src/luaparse/luaparse.ts:2706-2738 | `(` gives a call ending at `)`, `{` a table call, a string a string call; a `(` on a new line raises `ambiguousSyntax` without empty statements; any other token raises `expected function arguments` |
| LuaParser.Parser.ParseCallArguments | src/luaparse/luaparse.ts:2706-2738 | The same decisions for the call's data |
| LuaParser.Parser.ParseArguments | src/luaparse/luaparse.ts:2713-2724 | Arguments up to and including `)`, at least one when an expression follows the `(` |
| LuaParser.Parser.CloseArguments | src/luaparse/luaparse.ts:2719-2724 | The arguments so far are kept and extended, then `)` is taken |
| LuaParser.Parser.ParseTableArgument | src/luaparse/luaparse.ts:2727-2731 | A table constructor as the argument |
| LuaParser.Parser.ParseTableConstructor | src/luaparse/luaparse.ts:2446-2484 | A table constructor of table fields, closed by `}` |
| LuaParser.Parser.ParseTableFields | src/luaparse/luaparse.ts:2451-2481 | Every field read is a table field |
| LuaParser.Parser.ParseTableField | src/luaparse/luaparse.ts:2452-2475 | A field, always one at a name |
| LuaParser.Parser.ParseMarkedField | src/luaparse/luaparse.ts:2453-2475 | A keyed, named or positional field by the token; always one at a name |
| LuaParser.Parser.ParseKeyedField | src/luaparse/luaparse.ts:2453-2458 | `[k] = v` gives a `TableKey` |
| LuaParser.Parser.ParseBracketedKey | src/luaparse/luaparse.ts:2453-2455 | `[k]`, ending at `]` |
| LuaParser.Parser.ParseNamedField | src/luaparse/luaparse.ts:2460-2464 | `name = v` gives a `TableKeyString` with a name key |
| LuaParser.Parser.ParseFieldValue | src/luaparse/luaparse.ts:2456-2464 | `= v` and the field node with the given key, or `expected =` |
| LuaParser.Parser.ParseAssignedValue | src/luaparse/luaparse.ts:2456-2457 | `=` and an expression, or `expected =` |
| LuaParser.Parser.ParsePositionalField | src/luaparse/luaparse.ts:2465-2474 | A `TableValue`; required at a name, optional elsewhere, where no expression means no field |
| LuaParser.Parser.ParseFieldExpression | src/luaparse/luaparse.ts:2466-2470 | The value, required or optional |
| LuaParser.Parser.OpenScope | src/luaparse/luaparse.ts:2014-2015 | One scope more when scopes are tracked, and one flow scope more |
| LuaParser.Parser.CloseScope | src/luaparse/luaparse.ts:2017-2018 | The flow scope, then the scope, are closed |
| LuaParser.Parser.CloseScopedNode | src/luaparse/luaparse.ts:2186-2189 | `end`, the scope closed, the node finished; another token raises `expected end` |
| LuaParser.Parser.ParseFunctionDeclaration | src/luaparse/luaparse.ts:2367-2405 | A function declaration with the given name and locality, a proper parameter list and a proper body, closed by `end`; no `(` raises `expected (` |
| LuaParser.Parser.ParseParameterList | src/luaparse/luaparse.ts:2372-2398 | `(` and a parameter list up to `)`; `...` is allowed in the body iff it was before or the last parameter is `...` |
| LuaParser.Parser.ParseParameterTail | src/luaparse/luaparse.ts:2375-2398 | An immediate `)`, or the parameters and `)` |
| LuaParser.Parser.ParseParameters | src/luaparse/luaparse.ts:2378-2397 | Names with only the last possibly `...`, then `)`; any other first token raises `expected <name> or '...'` |
| LuaParser.Parser.ParseParameterRun | src/luaparse/luaparse.ts:2378-2394 | The parameters up to the first one not followed by `,` |
| LuaParser.Parser.ParseParameter | src/luaparse/luaparse.ts:2379-2394 | A name, or `...`, which allows `...` and is never followed by another |
| LuaParser.Parser.ParseDeclaredName | src/luaparse/luaparse.ts:2380-2382 | A local name, declared in the current scope when scopes are tracked |
| LuaParser.Parser.ParseVarargParameter | src/luaparse/luaparse.ts:2389-2391 | The vararg literal, and `...` allowed |
| LuaParser.Parser.ParseFunctionBody | src/luaparse/luaparse.ts:2399-2404 | A proper body, `end`, and the declaration node |
| LuaParser.Parser.ParseBlock | src/luaparse/luaparse.ts:1876-1896 | A proper block that ends at a block-following token or after a statement that must end it |
| LuaParser.Parser.ParseBlockStatement | src/luaparse/luaparse.ts:1883-1891 | A statement at `return` (or strict `break`) must end the block; any other cannot |
| LuaParser.Parser.ParseStatement | src/luaparse/luaparse.ts:1904-1973 | The node of the form `Dispatch` picks, nothing for an empty statement; `break` outside every loop fails, and so does a token that starts no statement |
| LuaParser.Parser.ParseMarkedStatement | src/luaparse/luaparse.ts:1907-1972 | The same, after the statement's marker |
| LuaParser.Parser.SkipEmptyStatement | src/luaparse/luaparse.ts:1912-1916 | `;` is taken and no node results |
| LuaParser.Parser.ParseOtherStatement | src/luaparse/luaparse.ts:1919-1972 | A keyword statement or an assignment or call, of the dispatched form |
| LuaParser.Parser.ParseKeywordStatement | src/luaparse/luaparse.ts:1921-1955 | The statement of the keyword's form; `break` fails iff it is outside every loop |
| LuaParser.Parser.ParseLoopStatement | src/luaparse/luaparse.ts:1936-1954 | The statement of a loop or jump form; `break` fails iff it is outside every loop |
| LuaParser.Parser.ParseDoOrJumpStatement | src/luaparse/luaparse.ts:1945-1954 | `break` outside every loop raises `noLoopToBreak`, and inside one gives a break statement; otherwise the statement of the form |
| LuaParser.Parser.ParseLabelStatement | src/luaparse/luaparse.ts:1979-1992 | A label statement naming the token's name; a non-name raises `expected <name>` |
| LuaParser.Parser.ParseLabelHead | src/luaparse/luaparse.ts:1980-1988 | The label's name and the closing `::` |
| LuaParser.Parser.FinishLabel | src/luaparse/luaparse.ts:1990-1991 | The label is added to the flow context and its node finished |
| LuaParser.Parser.ParseLabelName | src/luaparse/luaparse.ts:1980-1986 | The label name; with scopes tracked `::name::` joins the current scope |
| LuaParser.Parser.ParseGotoStatement | src/luaparse/luaparse.ts:2002-2009 | A goto statement naming the token's name |
| LuaParser.Parser.ParseScopedBlock | src/luaparse/luaparse.ts:2014-2018 | A proper block in a new scope and flow scope |
| LuaParser.Parser.ParseDoStatement | src/luaparse/luaparse.ts:2013-2021 | A `do` (or, with a condition, `while`) statement with a proper body, closed by `end` |
| LuaParser.Parser.ParseWhileStatement | src/luaparse/luaparse.ts:2025-2035 | A while statement with a proper body; no condition raises `expected <expression>` |
| LuaParser.Parser.ParseRepeatStatement | src/luaparse/luaparse.ts:2039-2049 | A repeat statement with a proper body |
| LuaParser.Parser.ParseUntil | src/luaparse/luaparse.ts:2043-2048 | `until` and the condition inside the body's scopes, which are closed after it |
| LuaParser.Parser.ParseRepeatCondition | src/luaparse/luaparse.ts:2046-2048 | The condition, then the body's scopes closed, and a repeat statement with the given body |
| LuaParser.Parser.FinishRepeat | src/luaparse/luaparse.ts:2046-2048 | The scopes are closed and the node finished |
| LuaParser.Parser.ParseReturnStatement | src/luaparse/luaparse.ts:2053-2067 | A return statement; at a token whose value is `end` it has no values and takes nothing |
| LuaParser.Parser.ParseReturnValues | src/luaparse/luaparse.ts:2056-2065 | At least one value when an expression starts here |
| LuaParser.Parser.ParseIfStatement | src/luaparse/luaparse.ts:2072-2123 | An if statement whose clauses are an `if`, `elseif`s and at most one last `else`, each with a proper body, closed by `end` |
| LuaParser.Parser.ParseConditionalClause | src/luaparse/luaparse.ts:2084-2103 | An `if` or `elseif` clause with a proper body |
| LuaParser.Parser.ParseClauseParts | src/luaparse/luaparse.ts:2084-2090 | The condition and a proper block |
| LuaParser.Parser.ParseThenBlock | src/luaparse/luaparse.ts:2085-2090 | `then` and a proper block, or `expected then` |
| LuaParser.Parser.ParseElseifClauses | src/luaparse/luaparse.ts:2093-2105 | The clauses so far, followed by `elseif` clauses |
| LuaParser.Parser.ParseElseifClause | src/luaparse/luaparse.ts:2094-2104 | One `elseif` clause with a proper body |
| LuaParser.Parser.ParseIfEnd | src/luaparse/luaparse.ts:2107-2122 | An optional `else` clause, `end`, and an if statement whose clauses extend the given ones |
| LuaParser.Parser.ParseElseClause | src/luaparse/luaparse.ts:2107-2119 | An `else` clause with a proper body |
| LuaParser.Parser.ParseForStatement | src/luaparse/luaparse.ts:2132-2191 | A numeric loop iff the token after the first name is `=`, else a generic loop with at least one name and one iterator; both have proper bodies |
| LuaParser.Parser.ParseForVariable | src/luaparse/luaparse.ts:2133-2141 | The first name, declared in a new scope when scopes are tracked |
| LuaParser.Parser.ParseForNumeric | src/luaparse/luaparse.ts:2145-2161 | A numeric loop on the given variable with a proper body |
| LuaParser.Parser.ParseNumericBounds | src/luaparse/luaparse.ts:2147-2152 | Start, `,`, limit and an optional step |
| LuaParser.Parser.ParseOptionalStep | src/luaparse/luaparse.ts:2152 | A step iff a `,` follows; otherwise nothing changes |
| LuaParser.Parser.ParseForGeneric | src/luaparse/luaparse.ts:2164-2190 | A generic loop whose names start with the given one, with iterators and a proper body |
| LuaParser.Parser.ParseForIn | src/luaparse/luaparse.ts:2166-2180 | The names up to `in`, then at least one iterator |
| LuaParser.Parser.ParseForNames | src/luaparse/luaparse.ts:2166-2173 | The names, starting with the given one, then `in` |
| LuaParser.Parser.ParseLoopBody | src/luaparse/luaparse.ts:2182-2185 | `do` and a proper block in a loop flow scope, or `expected do` |
| LuaParser.Parser.ParseLocalStatement | src/luaparse/luaparse.ts:2203-2250 | At a name, a local statement of names; at `function`, a local function; anything else raises `expected <name>` |
| LuaParser.Parser.ParseLocalVariables | src/luaparse/luaparse.ts:2207-2235 | The names and values; with scopes tracked every name is then in the current scope |
| LuaParser.Parser.FinishLocal | src/luaparse/luaparse.ts:2228-2234 | The names join the scope after the values, and the node keeps the values |
| LuaParser.Parser.ParseLocalNames | src/luaparse/luaparse.ts:2211-2216 | One or more names |
| LuaParser.Parser.ParseLocalName | src/luaparse/luaparse.ts:2212-2215 | A name, recorded as a local of the flow context |
| LuaParser.Parser.ParseLocalValues | src/luaparse/luaparse.ts:2218-2223 | Values iff `=` follows; none without it |
| LuaParser.Parser.ScopeIdentifiers | src/luaparse/luaparse.ts:2228-2232 | Each name joins the current scope and is marked local |
| LuaParser.Parser.ParseLocalFunction | src/luaparse/luaparse.ts:2236-2246 | A local function declaration named by the token |
| LuaParser.Parser.ScopeLocalFunction | src/luaparse/luaparse.ts:2240-2243 | The name joins the enclosing scope before the function's scope opens |
| LuaParser.Parser.ParseFunctionStatement | src/luaparse/luaparse.ts:1932-1935 | A non-local function declaration with a function name |
| LuaParser.Parser.ParseAssignmentOrCallStatement | src/luaparse/luaparse.ts:2260-2341 | A lone call is a call statement; otherwise an assignment of assignable targets with at least one value; a token that starts no prefix expression raises `unexpected` |
| LuaParser.Parser.ParseTargets | src/luaparse/luaparse.ts:2273-2323 | Targets before a `,` are assignable; the last is assignable or a call as reported |
| LuaParser.Parser.ParseTarget | src/luaparse/luaparse.ts:2274-2312 | One target, with whether it is assignable or a call |
| LuaParser.Parser.ParseTargetSuffixes | src/luaparse/luaparse.ts:2293-2312 | The suffix loop keeps the report true and stops at a token that continues nothing |
| LuaParser.Parser.ParseAssignment | src/luaparse/luaparse.ts:2331-2340 | An assignment of the targets with at least one value; no `=` raises `expected =` |
| LuaParser.Parser.ParseFunctionName | src/luaparse/luaparse.ts:2411-2438 | `Name {. Name} [: Name]`; with scopes tracked a method name declares `self` |
| LuaParser.Parser.ParseFunctionNameTail | src/luaparse/luaparse.ts:2424-2435 | The `.` parts and the optional `:` part |
| LuaParser.Parser.ParseChunk | src/luaparse/luaparse.ts:1855-1869 | A chunk of a proper block; the location stack is empty afterwards, the token is the end of input and the globals list never repeats a name |
| LuaParser.Parser.ParseChunkBody | src/luaparse/luaparse.ts:1858-1864 | A proper block in the chunk's scope and flow context |
| LuaParser.Parser.ChunkFlowContext | src/luaparse/luaparse.ts:1859-1861 | A fresh context that allows `...` with one scope open |
| LuaParser.Parser.FinishChunk | src/luaparse/luaparse.ts:1865-1868 | Any token but the end of input raises `unexpected`; otherwise the chunk node |

## Left out

- Message text: errors keep their kind and its arguments (names, lines, values), not the `sprintf` message.
  `errors.ts` only formats messages and is not part of this model.
- Numeric values: decimal values come from the host's `tonumber` and are not kept. A hexadecimal numeral keeps
  its `parseInt` result when it is a plain digit run, and NaN whenever one of its runs is worth 0, since NaN
  survives the floating-point arithmetic. Other fractions and binary exponents use floating point and are not
  kept.
- `parseInt` is only ever given non-empty digit runs (or `"0"`), on which the host's `tonumber` succeeds. So its
  NaN comes only from the falsy result 0, which the model's `ParseInt` turns into `NaN`.
- The host's `String.fromCharCode(NaN)`, reached by `\0`, `\000` and `\x00`, is the parameter `nanChar` of
  `Parse`. A host that raises an error there is not modelled.
- The `wait` option, `write`, `endshit`'s incremental input and the shebang stripping by Lua-pattern `gsub`:
  `Parse` is the `wait`-off path on a complete input.
- Callbacks `onCreateNode`, `onCreateScope`, `onDestroyScope` and `onLocalDeclaration`: they do not affect the
  result.
- Each encoding mode's `fixup` is the identity and `discardStrings` is never true, so the model leaves both out.
- The `warn` branch of `encodeUTF8` (luaparse.ts:168-171): values above U+10FFFF never reach it, since `\u{...}`
  rejects them first, but NaN does (from `\u{0}`). The model returns nothing there, as the source does; the
  warning output itself is left out.
- `LoopFlowContext.addGoto` and `addLabel` throw an internal error. They are not modelled. The parser calls them
  only with labels, and then it uses the full context (`ParseLabelStatement` and `ParseGotoStatement` require a
  full context).
- The internal "Location tracking failed" exception is not modelled. `ParseChunk` proves the stack is empty
  instead.
- Recursion depth: the source can overflow the host's stack. The model has no stack bound.
- Value-only comparisons are kept as written: `consume`, `expect` and the `"end"` test look at a token's
  value whatever its type. So a string token `"end"` closes a block, `return "end"` ends the return there,
  `f(, x)` and `return , x` take the `,` like any other, and `{1 "" 2}` separates fields with an empty string
  (it occurs in `",;"`).
- Function names: the source takes each `.` before pushing the marker for the member. The resulting markers and
  locations are the same as in the model, which pushes first.
- LuaParser.Parser.ParseExpression: states whether an expression is built and that the stacks are kept, not the
  node. The node and where its loop stops are stated by `ParseSubExpression`, which it calls at precedence 0.
- LuaParser.Parser.ParseArguments: states that the arguments end at `)` and that there is at least one when an
  expression follows the `(`, not the expressions themselves.
- LuaParser.Parser.ParseTableFields: states that every field is a table field, not how many fields there are.
- LuaParser.Parser.ParseReturnValues: states that there is at least one value when an expression starts at the
  token, not the values themselves.
- Expression nodes: the contracts give the node's kind and its links to the base or operands. They do not fix
  the node's location, except through `FinishNode` and the markers' own lemmas.
- Decimal numerals after `.`: `ScanNumericLiteral` states the extent and errors, not a value.
- LuaParser.Parser.constructor: the source never resets `token`, `lookahead` or `previousToken` between parses
  (luaparse.ts:770-778, 2848-2857). The first token of a parse is lexed with the previous parse's window, or
  with an undefined one on the first parse. The model starts every parse with an empty window.
- LuaParser.Parser.ScanLongStringLiteral: for a `[=` without its second `[` in the first token, the source
  evaluates `tokenValue(token)` (luaparse.ts:1037) on that stale or undefined token. That is a host error on
  the first parse, and an error at the previous parse's last token later. The model raises `expected [` at
  the cursor.
- LuaParser.Parser.ScanOperator: `unexpected` evaluates `tokenValue(lookahead)` (luaparse.ts:707) for its
  message. While the first token of the first parse is lexed that lookahead is undefined, and the host fails.
  The model raises `unexpectedSymbol` at the cursor, as the source does once a lookahead exists.
- The `throw` for an unsupported `luaVersion` or `encodingMode` (luaparse.ts:2859-2868): `Options` holds a
  `LuaVersion` and an `EncodingMode` datatype, so every version and mode the model can be given is supported.
- Tokens.ValueOccursIn: a number, boolean or nil value never occurs. The source hands such a value to the
  host's `String.indexOf` (luaparse.ts:1504, 2476), which searches for its text form. Digits, `true` and
  `false` never occur in `#-~` or `,;`. A nil value as the search pattern is left to the host.
- LuaParser.Parser.ReadHexLiteral: a plain hexadecimal digit run keeps its exact integer value. The host's
  doubles round values from 2^53 up, and `HexLiteralValue` does not model that rounding.
