/**
  Location markers: a `Marker` remembers where a node starts, is completed with the end of the previous
  token when the node is finished, and then attaches `loc` and `range` to the node.
*/
module Markers {
  import opened Wrappers
  import opened Tokens
  import opened Ast

  /** A marker as the source builds it: only the parts the `locations` and `ranges` options ask for. */
  datatype Marker = Marker(loc: Option<Location>, range: Option<Range>)

  /** `new Marker(token)`: the start is the token's start; the end is zero until the marker is completed. */
  function NewMarker(t: Token, locations: bool, ranges: bool): (m: Marker)
  {
    Marker(
      if locations then Some(Location(Position(t.line, t.start - t.lineStart), Position(0, 0))) else None,
      if ranges then Some(Range(t.start, 0)) else None)
  }

  /** JavaScript's `a || b` on an optional number: an absent value or a zero falls back to `b`. */
  function OrElse(a: Option<int>, b: int): int {
    if a.Some? && a.value != 0 then a.value else b
  }

  /**
    `complete`: the end is where the previous token ends, on the line it ends on (a multi-line string records
    its last line). Without a previous token the marker keeps its zero end.
  */
  function Complete(m: Marker, previous: Option<Token>): (r: Marker)
    ensures r.loc.Some? == m.loc.Some? && r.range.Some? == m.range.Some?
    ensures r.loc.Some? ==> r.loc.value.start == m.loc.value.start
    ensures r.range.Some? ==> r.range.value.start == m.range.value.start
    ensures previous.Some? && r.range.Some? ==> r.range.value.end == previous.value.end
    ensures previous.Some? && r.loc.Some? ==>
      && r.loc.value.end.line == OrElse(previous.value.lastLine, previous.value.line)
      && r.loc.value.end.column == previous.value.end - OrElse(previous.value.lastLineStart, previous.value.lineStart)
    ensures previous.None? ==> r == m
  {
    if previous.None? then m
    else
      var p := previous.value;
      Marker(
        if m.loc.Some? then
          Some(m.loc.value.(end := Position(OrElse(p.lastLine, p.line), p.end - OrElse(p.lastLineStart, p.lineStart))))
        else None,
        if m.range.Some? then Some(m.range.value.(end := p.end)) else None)
  }

  /** `bless`: the node takes the marker's location and range. */
  function Bless(m: Marker, data: NodeData): (n: Node)
  {
    Node(data, m.loc, m.range)
  }

  /**
    A token that ends on the line it starts (every token except a multi-line string) gives a node ending at
    that line, at the column of the token's end.
  */
  lemma SingleLineEnd(m: Marker, p: Token)
    requires m.loc.Some? && p.lastLine.None? && p.lastLineStart.None?
    ensures Complete(m, Some(p)).loc.value.end == Position(p.line, p.end - p.lineStart)
  {
  }
}
