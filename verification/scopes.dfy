/**
  The identifier scope tracker: a stack of name lists, one per block, and the list of global identifier
  nodes. The parser object holds the stack; these are the operations on one scope and on the globals list.
*/
module Scopes {
  import opened Ast

  /** `scopeIdentifierName` on the current scope: the name is appended unless it is already there. */
  function AddName(scope: seq<seq<int>>, name: seq<int>): (r: seq<seq<int>>)
    ensures forall n :: n in r <==> n in scope || n == name
    ensures name in scope ==> r == scope
    ensures name !in scope ==> r == scope + [name]
  {
    if name in scope then scope else scope + [name]
  }

  /** Declaring a name twice is the same as declaring it once. */
  lemma AddNameIdempotent(scope: seq<seq<int>>, name: seq<int>)
    ensures AddName(AddName(scope, name), name) == AddName(scope, name)
  {
  }

  predicate NoDuplicates<T(==)>(s: seq<T>) {
    forall i, j :: 0 <= i < j < |s| ==> s[i] != s[j]
  }

  /** A scope built only with `AddName` never lists a name twice. */
  lemma AddNameKeepsNoDuplicates(scope: seq<seq<int>>, name: seq<int>)
    requires NoDuplicates(scope)
    ensures NoDuplicates(AddName(scope, name))
  {
  }

  /** Some global identifier in the list has this name. */
  predicate HasName(globals: seq<Node>, name: seq<int>) {
    exists i :: 0 <= i < |globals| && globals[i].data.Identifier? && globals[i].data.name == name
  }

  /** `indexOfObject(globals, "name", name)`: the first entry with the name, or -1. */
  method IndexOfObject(globals: seq<Node>, name: seq<int>) returns (r: int)
    ensures r == -1 <==> !HasName(globals, name)
    ensures r != -1 ==> 0 <= r < |globals| && globals[r].data.Identifier? && globals[r].data.name == name
    ensures r != -1 ==> forall j :: 0 <= j < r ==> !(globals[j].data.Identifier? && globals[j].data.name == name)
  {
    var i := 0;
    while i < |globals|
      invariant 0 <= i <= |globals|
      invariant forall j :: 0 <= j < i ==> !(globals[j].data.Identifier? && globals[j].data.name == name)
    {
      if globals[i].data.Identifier? && globals[i].data.name == name {
        return i;
      }
      i := i + 1;
    }
    return -1;
  }

  /** What `attachScope` does to the globals list: a global identifier is added unless one with its name is there. */
  function AddGlobal(globals: seq<Node>, node: Node, isLocal: bool): (r: seq<Node>)
    requires node.data.Identifier?
  {
    if !isLocal && !HasName(globals, node.data.name) then globals + [node] else globals
  }

  /** The globals list has only identifiers, each name at most once. */
  predicate DistinctGlobals(globals: seq<Node>) {
    && (forall i :: 0 <= i < |globals| ==> globals[i].data.Identifier?)
    && (forall i, j :: 0 <= i < j < |globals| ==> globals[i].data.name != globals[j].data.name)
  }

  /** `attachScope` keeps the globals list free of repeated names, and a global's name is then listed. */
  lemma {:induction false} AddGlobalKeepsDistinct(globals: seq<Node>, node: Node, isLocal: bool)
    requires node.data.Identifier? && DistinctGlobals(globals)
    ensures DistinctGlobals(AddGlobal(globals, node, isLocal))
    ensures !isLocal ==> HasName(AddGlobal(globals, node, isLocal), node.data.name)
    ensures forall n :: HasName(AddGlobal(globals, node, isLocal), n) <==> HasName(globals, n) || (!isLocal && n == node.data.name)
  {
    var r := AddGlobal(globals, node, isLocal);
    if !isLocal && !HasName(globals, node.data.name) {
      assert r[|globals|] == node;
      forall i, j | 0 <= i < j < |r| ensures r[i].data.name != r[j].data.name {
        if j == |globals| {
          assert !(globals[i].data.Identifier? && globals[i].data.name == node.data.name);
        }
      }
      forall n ensures HasName(r, n) <==> HasName(globals, n) || n == node.data.name {
        if HasName(globals, n) {
          var i :| 0 <= i < |globals| && globals[i].data.Identifier? && globals[i].data.name == n;
          assert r[i] == globals[i];
        }
        if HasName(r, n) && n != node.data.name {
          var i :| 0 <= i < |r| && r[i].data.Identifier? && r[i].data.name == n;
          assert i < |globals| && globals[i] == r[i];
        }
      }
    } else if !isLocal {
      assert r == globals;
    }
  }
}
