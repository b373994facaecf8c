/** Dialect feature flags and the Lua versions that select them. */
module LuaFeatures {
  import opened Wrappers

  /** The `LuaFeatures` record; a flag left undefined in the source is `false` here. */
  datatype Features = Features(
    labels: bool,
    emptyStatement: bool,
    hexEscapes: bool,
    skipWhitespaceEscape: bool,
    strictEscapes: bool,
    unicodeEscapes: bool,
    relaxedBreak: bool,
    bitwiseOperators: bool,
    integerDivision: bool,
    contextualGoto: bool,
    extendedIdentifiers: bool)

  datatype LuaVersion = Lua51 | Lua52 | Lua53 | LuaJIT

  /** `versionFeatures[luaVersion]`, with the `extendedIdentifiers` option overriding the dialect default. */
  function VersionFeatures(v: LuaVersion, extendedIdentifiers: Option<bool>): (f: Features)
    ensures f.contextualGoto ==> f.labels
    ensures f.labels <==> v != Lua51
    ensures f.emptyStatement <==> (v == Lua52 || v == Lua53)
    ensures f.bitwiseOperators <==> v == Lua53
    ensures f.integerDivision <==> v == Lua53
    ensures f.contextualGoto <==> v == LuaJIT
    ensures f.relaxedBreak <==> (v == Lua52 || v == Lua53)
    ensures f.unicodeEscapes <==> (v == Lua53 || v == LuaJIT)
    ensures f.hexEscapes == f.skipWhitespaceEscape == f.strictEscapes == f.labels
    ensures f.extendedIdentifiers == (extendedIdentifiers.Some? && extendedIdentifiers.value)
  {
    var ext := extendedIdentifiers.Some? && extendedIdentifiers.value;
    match v
    case Lua51 => Features(false, false, false, false, false, false, false, false, false, false, ext)
    case Lua52 => Features(true, true, true, true, true, false, true, false, false, false, ext)
    case Lua53 => Features(true, true, true, true, true, true, true, true, true, false, ext)
    case LuaJIT => Features(true, false, true, true, true, true, false, false, false, true, ext)
  }

  /** The feature sets the parser can run with. */
  ghost predicate Supported(f: Features) {
    exists v: LuaVersion, e: Option<bool> :: f == VersionFeatures(v, e)
  }
}
