/**
  Control-flow contexts. `FullFlowContext` (dialects with labels) checks `break`, `goto` and labels;
  `LoopFlowContext` (Lua 5.1) only checks `break`. The parser holds one of them per function body through
  the `FlowContext` union.
*/
module Flow {
  import opened Wrappers
  import opened Tokens
  import opened Errors

  datatype Label = Label(localCount: nat, line: int)
  datatype Local = Local(name: seq<int>, token: Token)

  /**
    A `goto` not yet matched by a label: the outermost depth its label may still appear at, and the local
    counts of every enclosing scope when it was seen.
  */
  datatype Goto = Goto(maxDepth: int, target: seq<int>, token: Token, localCounts: seq<nat>)

  datatype FlowScope = FlowScope(labels: map<seq<int>, Label>, locals: seq<Local>, deferredGotos: seq<Goto>, isLoop: bool)

  /** The local counts `addGoto` snapshots, one per scope from the outermost. */
  function LocalCounts(scopes: seq<FlowScope>): (r: seq<nat>)
  {
    seq(|scopes|, i requires 0 <= i < |scopes| => |scopes[i].locals|)
  }

  /** The label defined at this depth resolves the goto: same name, and the goto has not left that depth. */
  predicate Resolves(g: Goto, name: seq<int>, depth: int) {
    g.maxDepth >= depth && g.target == name
  }

  /** The pending gotos a label leaves pending, in order. */
  function Unresolved(gotos: seq<Goto>, name: seq<int>, depth: int): (r: seq<Goto>)
    ensures forall g <- r :: g in gotos && !Resolves(g, name, depth)
    ensures forall g <- gotos :: !Resolves(g, name, depth) ==> g in r
    ensures |r| <= |gotos|
  {
    if gotos == [] then []
    else
      var last := gotos[|gotos| - 1];
      Unresolved(gotos[..|gotos| - 1], name, depth) + (if Resolves(last, name, depth) then [] else [last])
  }

  /** The resolved gotos that jump forward over a local declared after them; their errors wait until the next statement. */
  function Deferred(gotos: seq<Goto>, name: seq<int>, depth: int, localCount: nat): (r: seq<Goto>)
    requires 0 < depth
    requires forall g <- gotos :: Resolves(g, name, depth) ==> depth <= |g.localCounts|
    ensures forall g <- r :: g in gotos && Resolves(g, name, depth) && g.localCounts[depth - 1] < localCount
    ensures forall g <- gotos :: Resolves(g, name, depth) && g.localCounts[depth - 1] < localCount ==> g in r
  {
    if gotos == [] then []
    else
      var last := gotos[|gotos| - 1];
      Deferred(gotos[..|gotos| - 1], name, depth, localCount)
      + (if Resolves(last, name, depth) && last.localCounts[depth - 1] < localCount then [last] else [])
  }

  /**
    The loop of `addLabel` over the pending gotos: those the label at `depth` resolves are dropped, and among
    them the ones whose snapshot at that depth is below `localCount` are collected for deferral.
  */
  method SplitPending(gotos: seq<Goto>, name: seq<int>, depth: int, localCount: nat)
    returns (kept: seq<Goto>, deferred: seq<Goto>)
    requires 0 < depth
    requires forall g <- gotos :: Resolves(g, name, depth) ==> depth <= |g.localCounts|
    ensures kept == Unresolved(gotos, name, depth)
    ensures deferred == Deferred(gotos, name, depth, localCount)
  {
    kept := [];
    deferred := [];
    var i := 0;
    while i < |gotos|
      invariant 0 <= i <= |gotos|
      invariant kept == Unresolved(gotos[..i], name, depth)
      invariant deferred == Deferred(gotos[..i], name, depth, localCount)
    {
      var theGoto := gotos[i];
      SplitStep(gotos, i, name, depth, localCount);
      if theGoto.maxDepth >= depth && theGoto.target == name {
        if theGoto.localCounts[depth - 1] < localCount {
          deferred := deferred + [theGoto];
        }
        i := i + 1;
        continue;
      }
      kept := kept + [theGoto];
      i := i + 1;
    }
    assert gotos[..i] == gotos;
  }

  /** What `Unresolved` and `Deferred` add for one more goto. */
  lemma SplitStep(gotos: seq<Goto>, i: nat, name: seq<int>, depth: int, localCount: nat)
    requires 0 < depth && i < |gotos|
    requires forall g <- gotos :: Resolves(g, name, depth) ==> depth <= |g.localCounts|
    ensures Unresolved(gotos[..i + 1], name, depth)
         == Unresolved(gotos[..i], name, depth) + if Resolves(gotos[i], name, depth) then [] else [gotos[i]]
    ensures Deferred(gotos[..i + 1], name, depth, localCount)
         == Deferred(gotos[..i], name, depth, localCount)
            + if Resolves(gotos[i], name, depth) && gotos[i].localCounts[depth - 1] < localCount then [gotos[i]] else []
  {
    assert gotos[..i + 1][..i] == gotos[..i];
  }

  /** A label splits the pending gotos: every one is either still pending or resolved by it, none both. */
  lemma {:induction false} LabelPartitionsGotos(gotos: seq<Goto>, name: seq<int>, depth: int)
    ensures multiset(Unresolved(gotos, name, depth)) + multiset(Resolved(gotos, name, depth)) == multiset(gotos)
  {
    if gotos != [] {
      var init := gotos[..|gotos| - 1];
      LabelPartitionsGotos(init, name, depth);
      assert gotos == init + [gotos[|gotos| - 1]];
    }
  }

  /** The gotos a label resolves, in order. */
  function Resolved(gotos: seq<Goto>, name: seq<int>, depth: int): seq<Goto> {
    if gotos == [] then []
    else
      var last := gotos[|gotos| - 1];
      Resolved(gotos[..|gotos| - 1], name, depth) + (if Resolves(last, name, depth) then [last] else [])
  }

  /** What `popScope` does to a pending goto that has reached the depth being left. */
  function Lower(g: Goto, depth: int): Goto {
    if g.maxDepth >= depth then g.(maxDepth := g.maxDepth - 1) else g
  }

  function LowerAll(gotos: seq<Goto>, depth: int): (r: seq<Goto>)
  {
    seq(|gotos|, i requires 0 <= i < |gotos| => Lower(gotos[i], depth))
  }

  /** Leaving `depth` makes this goto's label unreachable. */
  predicate Invisible(g: Goto, depth: int) {
    g.maxDepth >= depth && g.maxDepth - 1 <= 0
  }

  /** A goto can only be pending at depths it has not left, and it remembers at least that many local counts. */
  predicate PendingOk(g: Goto, depth: int) {
    1 <= g.maxDepth <= depth && g.maxDepth <= |g.localCounts|
  }

  /** A deferred goto of the scope at index `k` jumps over a local that scope really has. */
  predicate DeferredOk(g: Goto, k: int, scope: FlowScope) {
    0 <= k < |g.localCounts| && g.localCounts[k] < |scope.locals|
  }

  class FullFlowContext {
    var scopes: seq<FlowScope>
    var pendingGotos: seq<Goto>
    var allowVararg: bool

    ghost predicate Valid()
      reads this
    {
      && (forall g <- pendingGotos :: PendingOk(g, |scopes|))
      && (forall k :: 0 <= k < |scopes| ==> forall g <- scopes[k].deferredGotos :: DeferredOk(g, k, scopes[k]))
    }

    constructor ()
      ensures scopes == [] && pendingGotos == [] && !allowVararg
      ensures Valid()
    {
      scopes := [];
      pendingGotos := [];
      allowVararg := false;
    }

    /** `isInLoop`: some enclosing scope of this function is a loop body. */
    method IsInLoop() returns (b: bool)
      ensures b <==> exists i :: 0 <= i < |scopes| && scopes[i].isLoop
    {
      var i := |scopes|;
      while i > 0
        invariant 0 <= i <= |scopes|
        invariant forall j :: i <= j < |scopes| ==> !scopes[j].isLoop
      {
        i := i - 1;
        if scopes[i].isLoop {
          return true;
        }
      }
      return false;
    }

    method PushScope(isLoop: bool)
      requires Valid()
      modifies this
      ensures scopes == old(scopes) + [FlowScope(map[], [], [], isLoop)]
      ensures pendingGotos == old(pendingGotos) && allowVararg == old(allowVararg)
      ensures Valid()
    {
      scopes := scopes + [FlowScope(map[], [], [], isLoop)];
      assert forall k :: 0 <= k < |scopes| - 1 ==> scopes[k] == old(scopes)[k];
    }

    /**
      `popScope`: every pending goto that has reached the current depth moves out one level; one that has
      nowhere left to go raises `labelNotVisible`, the first in order.
    */
    method PopScope() returns (o: Outcome<SyntaxError>)
      requires Valid() && |scopes| > 0
      modifies this
      ensures allowVararg == old(allowVararg)
      ensures o.Pass? <==> forall g <- old(pendingGotos) :: !Invisible(g, |old(scopes)|)
      ensures o.Pass? ==> scopes == old(scopes)[..|old(scopes)| - 1]
      ensures o.Pass? ==> pendingGotos == LowerAll(old(pendingGotos), |old(scopes)|)
      ensures o.Pass? ==> Valid()
      ensures o.Fail? ==>
        exists i :: 0 <= i < |old(pendingGotos)| && Invisible(old(pendingGotos)[i], |old(scopes)|)
          && (forall j :: 0 <= j < i ==> !Invisible(old(pendingGotos)[j], |old(scopes)|))
          && o.error == RaiseAt(old(pendingGotos)[i].token, LabelNotVisible(old(pendingGotos)[i].target))
    {
      var depth := |scopes|;
      var i := 0;
      while i < |pendingGotos|
        invariant 0 <= i <= |pendingGotos| == |old(pendingGotos)|
        invariant scopes == old(scopes) && allowVararg == old(allowVararg)
        invariant pendingGotos[..i] == LowerAll(old(pendingGotos)[..i], depth)
        invariant pendingGotos[i..] == old(pendingGotos)[i..]
        invariant forall j :: 0 <= j < i ==> !Invisible(old(pendingGotos)[j], depth)
      {
        var theGoto := pendingGotos[i];
        assert theGoto == old(pendingGotos)[i];
        if theGoto.maxDepth >= |scopes| {
          pendingGotos := pendingGotos[i := theGoto.(maxDepth := theGoto.maxDepth - 1)];
          if theGoto.maxDepth - 1 <= 0 {
            assert Invisible(old(pendingGotos)[i], depth);
            return Fail(RaiseAt(theGoto.token, LabelNotVisible(theGoto.target)));
          }
        }
        assert pendingGotos[..i + 1] == pendingGotos[..i] + [Lower(old(pendingGotos)[i], depth)];
        i := i + 1;
      }
      assert pendingGotos == pendingGotos[..i];
      scopes := scopes[..|scopes| - 1];
      forall g <- pendingGotos ensures PendingOk(g, |scopes|) {
        var j :| 0 <= j < |pendingGotos| && pendingGotos[j] == g;
        assert PendingOk(old(pendingGotos)[j], depth);
      }
      assert forall k :: 0 <= k < |scopes| ==> scopes[k] == old(scopes)[k];
      return Pass;
    }

    /**
      `addGoto`: a label of that name already visible in an enclosing scope settles the goto; otherwise it
      becomes pending at the current depth with a snapshot of every scope's local count.
    */
    method AddGoto(target: seq<int>, token: Token)
      requires Valid() && |scopes| > 0
      modifies this
      ensures scopes == old(scopes) && allowVararg == old(allowVararg)
      ensures (exists i :: 0 <= i < |scopes| && target in scopes[i].labels) ==> pendingGotos == old(pendingGotos)
      ensures (forall i :: 0 <= i < |scopes| ==> target !in scopes[i].labels) ==>
        pendingGotos == old(pendingGotos) + [Goto(|scopes|, target, token, LocalCounts(scopes))]
      ensures Valid()
    {
      var localCounts: seq<nat> := [];
      var i := 0;
      while i < |scopes|
        invariant 0 <= i <= |scopes|
        invariant localCounts == LocalCounts(scopes[..i])
        invariant forall j :: 0 <= j < i ==> target !in scopes[j].labels
      {
        var scope := scopes[i];
        localCounts := localCounts + [|scope.locals|];
        if target in scope.labels {
          return;
        }
        i := i + 1;
      }
      assert scopes[..i] == scopes;
      pendingGotos := pendingGotos + [Goto(|scopes|, target, token, localCounts)];
    }

    /**
      `addLabel`: a label already defined in the current scope raises `labelAlreadyDefined`. Otherwise the
      pending gotos it resolves leave the pending list, those that jump over a later local are deferred on
      the current scope, and the label is recorded with the current local count.
    */
    method AddLabel(name: seq<int>, token: Token) returns (o: Outcome<SyntaxError>)
      requires Valid() && |scopes| > 0
      modifies this
      ensures allowVararg == old(allowVararg)
      ensures var top := old(scopes)[|old(scopes)| - 1];
        && (o.Fail? <==> name in top.labels)
        && (o.Fail? ==> o.error == RaiseAt(token, LabelAlreadyDefined(name, top.labels[name].line)))
        && (o.Pass? ==>
          && |scopes| == |old(scopes)|
          && scopes[..|scopes| - 1] == old(scopes)[..|scopes| - 1]
          && pendingGotos == Unresolved(old(pendingGotos), name, |scopes|)
          && scopes[|scopes| - 1] == top.(
            labels := top.labels[name := Label(|top.locals|, token.line)],
            deferredGotos := top.deferredGotos + Deferred(old(pendingGotos), name, |scopes|, |top.locals|))
          && Valid())
    {
      var scope := scopes[|scopes| - 1];
      if name in scope.labels {
        return Fail(RaiseAt(token, LabelAlreadyDefined(name, scope.labels[name].line)));
      }
      var depth := |scopes|;
      var newGotos, deferred := SplitPending(pendingGotos, name, depth, |scope.locals|);
      pendingGotos := newGotos;
      scopes := scopes[depth - 1 := scope.(
        labels := scope.labels[name := Label(|scope.locals|, token.line)],
        deferredGotos := scope.deferredGotos + deferred)];
      forall g <- scope.deferredGotos + deferred ensures DeferredOk(g, depth - 1, scopes[depth - 1]) {
        if g !in scope.deferredGotos {
          assert PendingOk(g, depth);
        }
      }
      assert forall k :: 0 <= k < depth - 1 ==> scopes[k] == old(scopes)[k];
      return Pass;
    }

    /** `addLocal`: the current scope gains a local. */
    method AddLocal(name: seq<int>, token: Token)
      requires Valid() && |scopes| > 0
      modifies this
      ensures |scopes| == |old(scopes)| && scopes[..|scopes| - 1] == old(scopes)[..|scopes| - 1]
      ensures var top := old(scopes)[|scopes| - 1];
        scopes[|scopes| - 1] == top.(locals := top.locals + [Local(name, token)])
      ensures pendingGotos == old(pendingGotos) && allowVararg == old(allowVararg)
      ensures Valid()
    {
      var top := scopes[|scopes| - 1];
      scopes := scopes[|scopes| - 1 := top.(locals := top.locals + [Local(name, token)])];
      assert forall k :: 0 <= k < |scopes| - 1 ==> scopes[k] == old(scopes)[k];
    }

    /**
      `raiseDeferredErrors`: the first goto deferred on the current scope raises `gotoJumpInLocalScope`,
      naming the first local it jumps over; its loop never reaches a second iteration.
    */
    method RaiseDeferredErrors() returns (o: Outcome<SyntaxError>)
      requires Valid() && |scopes| > 0
      ensures var top := scopes[|scopes| - 1];
        && (o.Fail? <==> top.deferredGotos != [])
        && (o.Fail? ==>
          var g := top.deferredGotos[0];
          DeferredOk(g, |scopes| - 1, top) &&
          o.error == RaiseAt(g.token, GotoJumpInLocalScope(g.target, top.locals[g.localCounts[|scopes| - 1]].name)))
    {
      var scope := scopes[|scopes| - 1];
      var bads := scope.deferredGotos;
      if |bads| > 0 {
        var theGoto := bads[0];
        assert DeferredOk(theGoto, |scopes| - 1, scope);
        return Fail(RaiseAt(theGoto.token,
          GotoJumpInLocalScope(theGoto.target, scope.locals[theGoto.localCounts[|scopes| - 1]].name)));
      }
      return Pass;
    }
  }

  /** The state of a `LoopFlowContext`: the block depth and the depths of the enclosing loop bodies. */
  predicate LoopStateOk(level: int, loopLevels: seq<int>) {
    && level >= 0
    && (forall i :: 0 <= i < |loopLevels| ==> 1 <= loopLevels[i] <= level)
    && (forall i, j :: 0 <= i < j < |loopLevels| ==> loopLevels[i] < loopLevels[j])
  }

  /** `pushScope` of a `LoopFlowContext`. */
  function LoopPushed(level: int, loopLevels: seq<int>, isLoop: bool): (int, seq<int>) {
    (level + 1, if isLoop then loopLevels + [level + 1] else loopLevels)
  }

  /** `popScope` of a `LoopFlowContext`. */
  function LoopPopped(level: int, loopLevels: seq<int>): (int, seq<int>) {
    (level - 1,
     if |loopLevels| > 0 && loopLevels[|loopLevels| - 1] == level then loopLevels[..|loopLevels| - 1] else loopLevels)
  }

  /** A `pushScope`/`popScope` pair restores both the level and the loop levels, whether the scope was a loop or not. */
  lemma LoopPushPopRestores(level: int, loopLevels: seq<int>, isLoop: bool)
    requires LoopStateOk(level, loopLevels)
    ensures var (l, ls) := LoopPushed(level, loopLevels, isLoop); LoopPopped(l, ls) == (level, loopLevels)
  {
    if !isLoop && |loopLevels| > 0 {
      assert loopLevels[|loopLevels| - 1] <= level;
    }
  }

  /** Pushing keeps the state well formed, and the pushed scope is in a loop if it is a loop body. */
  lemma LoopPushKeepsState(level: int, loopLevels: seq<int>, isLoop: bool)
    requires LoopStateOk(level, loopLevels)
    ensures var (l, ls) := LoopPushed(level, loopLevels, isLoop);
      LoopStateOk(l, ls) && (isLoop ==> |ls| > 0) && (|loopLevels| > 0 ==> |ls| > 0)
  {
  }

  /** Popping a pushed scope keeps the state well formed. */
  lemma LoopPopKeepsState(level: int, loopLevels: seq<int>)
    requires LoopStateOk(level, loopLevels) && level > 0
    ensures var (l, ls) := LoopPopped(level, loopLevels); LoopStateOk(l, ls)
  {
  }

  class LoopFlowContext {
    var level: int
    var loopLevels: seq<int>
    var allowVararg: bool

    ghost predicate Valid()
      reads this
    {
      LoopStateOk(level, loopLevels)
    }

    constructor ()
      ensures level == 0 && loopLevels == [] && !allowVararg
      ensures Valid()
    {
      level := 0;
      loopLevels := [];
      allowVararg := false;
    }

    /** `isInLoop`: some loop level is recorded. */
    function IsInLoop(): bool
      reads this
    {
      |loopLevels| > 0
    }

    method PushScope(isLoop: bool)
      requires Valid()
      modifies this
      ensures (level, loopLevels) == LoopPushed(old(level), old(loopLevels), isLoop)
      ensures allowVararg == old(allowVararg)
      ensures Valid()
    {
      LoopPushKeepsState(level, loopLevels, isLoop);
      level := level + 1;
      if isLoop {
        loopLevels := loopLevels + [level];
      }
    }

    method PopScope()
      requires Valid() && level > 0
      modifies this
      ensures (level, loopLevels) == LoopPopped(old(level), old(loopLevels))
      ensures allowVararg == old(allowVararg)
      ensures Valid()
    {
      LoopPopKeepsState(level, loopLevels);
      var levels := loopLevels;
      var levlen := |levels|;
      if levlen > 0 {
        if levels[levlen - 1] == level {
          loopLevels := levels[..levlen - 1];
        }
      }
      level := level - 1;
    }
  }

  /** The flow context of one function body: the full one when the dialect has labels, the loop-only one otherwise. */
  datatype FlowContext = Full(full: FullFlowContext) | Loop(loop: LoopFlowContext) {
    function Obj(): object {
      if Full? then full else loop
    }

    ghost predicate Valid()
      reads Obj()
    {
      if Full? then full.Valid() else loop.Valid()
    }

    /** The number of scopes pushed and not popped. */
    function Depth(): int
      reads Obj()
    {
      if Full? then |full.scopes| else loop.level
    }

    function AllowVararg(): bool
      reads Obj()
    {
      if Full? then full.allowVararg else loop.allowVararg
    }

    /** Some enclosing scope of the function body is a loop body. */
    ghost predicate InLoop()
      reads Obj()
    {
      if Full? then exists i :: 0 <= i < |full.scopes| && full.scopes[i].isLoop else |loop.loopLevels| > 0
    }
  }

  /** `makeFlowContext`. */
  method MakeFlowContext(labels: bool) returns (fc: FlowContext)
    ensures fc.Full? <==> labels
    ensures fresh(fc.Obj()) && fc.Valid() && fc.Depth() == 0 && !fc.AllowVararg()
  {
    if labels {
      var c := new FullFlowContext();
      fc := Full(c);
    } else {
      var c := new LoopFlowContext();
      fc := Loop(c);
    }
  }

  /** `flowContext.isInLoop()`. */
  method FlowIsInLoop(fc: FlowContext) returns (b: bool)
    ensures b <==> fc.InLoop()
  {
    match fc
    case Full(c) => b := c.IsInLoop();
    case Loop(c) => b := c.IsInLoop();
  }

  /**
    `flowContext.pushScope(isLoop)`: one scope deeper, and inside a loop afterwards exactly when it already was
    or the new scope is a loop body.
  */
  method FlowPushScope(fc: FlowContext, isLoop: bool)
    requires fc.Valid()
    modifies fc.Obj()
    ensures fc.Valid() && fc.Depth() == old(fc.Depth()) + 1 && fc.AllowVararg() == old(fc.AllowVararg())
    ensures fc.InLoop() <==> old(fc.InLoop()) || isLoop
    ensures fc.Full? ==>
      fc.full.scopes == old(fc.full.scopes) + [FlowScope(map[], [], [], isLoop)]
      && fc.full.pendingGotos == old(fc.full.pendingGotos)
    ensures fc.Loop? ==> (fc.loop.level, fc.loop.loopLevels) == LoopPushed(old(fc.loop.level), old(fc.loop.loopLevels), isLoop)
  {
    match fc
    case Full(c) =>
      c.PushScope(isLoop);
      if isLoop {
        assert c.scopes[|c.scopes| - 1].isLoop;
      }
      if old(fc.InLoop()) {
        var i :| 0 <= i < |old(c.scopes)| && old(c.scopes)[i].isLoop;
        assert c.scopes[i] == old(c.scopes)[i];
      }
      if fc.InLoop() {
        var i :| 0 <= i < |c.scopes| && c.scopes[i].isLoop;
        if i < |old(c.scopes)| {
          assert old(c.scopes)[i] == c.scopes[i];
        }
      }
    case Loop(c) =>
      c.PushScope(isLoop);
  }

  /**
    `flowContext.popScope()`: the full context raises `labelNotVisible` at the first pending goto that has
    nowhere left to go, else drops its scope and moves the pending gotos out; the loop-only context never
    raises and forgets the loop level of the scope it leaves. Only leaving the outermost scope can raise: a
    goto pending in an inner scope may still find its label in an enclosing one.
  */
  method FlowPopScope(fc: FlowContext) returns (o: Outcome<SyntaxError>)
    requires fc.Valid() && fc.Depth() > 0
    modifies fc.Obj()
    ensures fc.Loop? ==> o.Pass? && (fc.loop.level, fc.loop.loopLevels) == LoopPopped(old(fc.loop.level), old(fc.loop.loopLevels))
    ensures o.Pass? ==> fc.Valid() && fc.Depth() == old(fc.Depth()) - 1 && fc.AllowVararg() == old(fc.AllowVararg())
    ensures old(fc.Depth()) >= 2 ==> o.Pass?
    ensures fc.Full? ==>
      var depth := |old(fc.full.scopes)|;
      var gotos := old(fc.full.pendingGotos);
      && (o.Pass? <==> forall g <- gotos :: !Invisible(g, depth))
      && (o.Pass? ==> fc.full.scopes == old(fc.full.scopes)[..depth - 1] && fc.full.pendingGotos == LowerAll(gotos, depth))
      && (o.Fail? ==>
        exists i :: 0 <= i < |gotos| && Invisible(gotos[i], depth)
          && (forall j :: 0 <= j < i ==> !Invisible(gotos[j], depth))
          && o.error == RaiseAt(gotos[i].token, LabelNotVisible(gotos[i].target)))
  {
    match fc
    case Full(c) => o := c.PopScope();
    case Loop(c) => c.PopScope(); o := Pass;
  }

  /** `flowContext.addLocal(name, token)`: the full context's current scope gains the local; the loop-only one ignores it. */
  method FlowAddLocal(fc: FlowContext, name: seq<int>, token: Token)
    requires fc.Valid() && fc.Depth() > 0
    modifies fc.Obj()
    ensures fc.Valid() && fc.Depth() == old(fc.Depth()) && fc.AllowVararg() == old(fc.AllowVararg())
    ensures fc.Loop? ==> unchanged(fc.loop)
    ensures fc.Full? ==>
      var n := |fc.full.scopes|;
      var top := old(fc.full.scopes)[n - 1];
      && fc.full.scopes == old(fc.full.scopes)[n - 1 := top.(locals := top.locals + [Local(name, token)])]
      && fc.full.pendingGotos == old(fc.full.pendingGotos)
  {
    match fc
    case Full(c) => c.AddLocal(name, token);
    case Loop(c) =>
  }

  /**
    `flowContext.raiseDeferredErrors()`: the full context raises `gotoJumpInLocalScope` for the first goto
    deferred on its current scope, naming the first local that goto jumps over; the loop-only context has none.
  */
  method FlowRaiseDeferredErrors(fc: FlowContext) returns (o: Outcome<SyntaxError>)
    requires fc.Valid() && fc.Depth() > 0
    ensures fc.Loop? ==> o.Pass?
    ensures fc.Full? ==>
      var k := |fc.full.scopes| - 1;
      var top := fc.full.scopes[k];
      && (o.Fail? <==> top.deferredGotos != [])
      && (o.Fail? ==>
        var g := top.deferredGotos[0];
        DeferredOk(g, k, top) && o.error == RaiseAt(g.token, GotoJumpInLocalScope(g.target, top.locals[g.localCounts[k]].name)))
  {
    match fc
    case Full(c) => o := c.RaiseDeferredErrors();
    case Loop(c) => o := Pass;
  }

  /** `flowContext.allowVararg = true`. */
  method FlowAllowVararg(fc: FlowContext)
    requires fc.Valid()
    modifies fc.Obj()
    ensures fc.Valid() && fc.Depth() == old(fc.Depth()) && fc.AllowVararg()
  {
    match fc
    case Full(c) => c.allowVararg := true;
    case Loop(c) => c.allowVararg := true;
  }
}
