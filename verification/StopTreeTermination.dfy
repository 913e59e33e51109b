/**
  Cascades of unwinds, callbacks, cancels and hooks terminate, no thread waits for
  another one, and a child's stop does not leak into its ancestors.
 */
module StopTreeTermination {
  import opened Options
  import opened StateNode
  import opened StopTree
  import opened StopTreeGauges
  import opened StopTreeLocal
  import opened StopTreePaths
  import opened StopTreeInvariant
  import opened StopTreeRuns

  function PotentialSum(cells: seq<Cell>): nat {
    if cells == [] then 0 else PotentialSum(cells[..|cells| - 1]) + Potential(cells[|cells| - 1])
  }

  lemma {:induction false} PotentialUpdate(cells: seq<Cell>, i: nat, c: Cell)
    requires i < |cells|
    ensures PotentialSum(cells[i := c]) == PotentialSum(cells) - Potential(cells[i]) + Potential(c)
  {
    var last := |cells| - 1;
    if i == last {
      assert cells[i := c][..last] == cells[..last];
    } else {
      assert cells[i := c][..last] == cells[..last][i := c];
      PotentialUpdate(cells[..last], i, c);
    }
  }

  /** A bound on the steps that threads can still take on their own: pending work, plus
      the armed hooks, deferred callbacks and unspent cancels that it may release. */
  function TotalCost(s: State): nat {
    ReadAll(Cost, s.threads) + PotentialSum(s.cells)
  }

  lemma RunCostsSomething(s: State, t: nat, ch: Choice)
    requires Inv(s) && Enabled(s, Run(t, ch))
    ensures TotalCost(StepRun(s, t, ch)) < TotalCost(s)
  {
    RunReady(s, t, ch);
    var a := s.threads[t][0];
    ReadStep(Cost, s, t, ch);
    ExecCost(a, s.cells[Target(a)], s.now, t, ch);
    PotentialUpdate(s.cells, Target(a), RunEffect(s, t, ch).cell);
  }

  /** As long as user code makes no further calls, no interleaving of the threads can
      take more steps than the state's cost. */
  lemma {:induction false} CascadesTerminate(s: State, ls: seq<Label>, u: State)
    requires Inv(s) && IsRun(s, ls, u) && forall l :: l in ls ==> l.Run?
    ensures |ls| + TotalCost(u) <= TotalCost(s)
    decreases |ls|
  {
    if ls != [] {
      assert ls[0] in ls;
      RunCostsSomething(s, ls[0].t, ls[0].choice);
      StepKeepsInv(s, ls[0]);
      CascadesTerminate(Step(s, ls[0]), ls[1..], u);
    }
  }

  lemma {:induction false} SomeOrder(keys: set<NodeId>) returns (order: seq<NodeId>)
    ensures |order| == |keys| && forall c :: c in order <==> c in keys
    decreases |keys|
  {
    if keys == {} {
      order := [];
    } else {
      var k :| k in keys;
      var rest := SomeOrder(keys - {k});
      order := [k] + rest;
    }
  }

  /** No thread ever waits for another one while it is between two critical sections:
      whatever the rest of the system does, its next action can be performed. */
  lemma NeverBlocked(s: State, t: nat)
    requires Inv(s) && t < |s.threads| && s.threads[t] != []
    ensures exists ch :: Enabled(s, Run(t, ch))
  {
    var a := s.threads[t][0];
    assert a in s.threads[t] && ActOk(s.cells, s.now, a);
    var hooks := if a.Hooks? then a.hooks else map[];
    var order := SomeOrder(hooks.Keys);
    var ch := Choice(order, None, false);
    assert Enabled(s, Run(t, ch));
  }

  /** So from every state the pending work can be run until no thread has any left. */
  lemma {:induction false} Drains(s: State) returns (ls: seq<Label>, u: State)
    requires Inv(s)
    ensures IsRun(s, ls, u) && forall t :: 0 <= t < |u.threads| ==> u.threads[t] == []
    decreases TotalCost(s)
  {
    if t :| 0 <= t < |s.threads| && s.threads[t] != [] {
      NeverBlocked(s, t);
      var ch :| Enabled(s, Run(t, ch));
      RunCostsSomething(s, t, ch);
      RunKeepsInv(s, t, ch);
      var rest;
      rest, u := Drains(StepRun(s, t, ch));
      ls := [Run(t, ch)] + rest;
      assert ls[1..] == rest;
    } else {
      ls, u := [], s;
    }
  }

  // Confinement.

  /** Work that a stop of c can lead to. */
  ghost predicate Below(cells: seq<Cell>, c: NodeId, a: Action)
    requires ParentsBelow(cells)
  {
    match a
    case Stop(n, _) => n < |cells| && Above(cells, c, n)
    case Hooks(n, _) => n < |cells| && Above(cells, c, n)
    case Due(n, _) => n < |cells| && Above(cells, c, n)
    case Running(n, _) => n < |cells| && Above(cells, c, n)
    case Returned(n, _, _) => n < |cells| && Above(cells, c, n)
    case Cancel(n, _) => n < |cells| && Above(cells, c, n)
    case CancelCtx(n, _) => n < |cells| && Above(cells, c, n)
    case DetachCheck(_, child) => child < |cells| && Above(cells, c, child)
    case Detach(_, child) => child < |cells| && Above(cells, c, child)
    case _ => false
  }

  /** Everything about a node except which of its children are hooked. */
  ghost predicate SameButHooks(c: Cell, d: Cell) {
    d == Cell(c.node.(hooks := d.node.hooks), c.hist)
  }

  ghost predicate OutsideSame(s: State, u: State, c: NodeId)
    requires ParentsBelow(s.cells) && |s.cells| <= |u.cells|
  {
    forall i :: 0 <= i < |s.cells| && !Above(s.cells, c, i) ==> SameButHooks(s.cells[i], u.cells[i])
  }

  lemma ConfinedStep(s: State, t: nat, ch: Choice, c: NodeId)
    requires Inv(s) && Enabled(s, Run(t, ch)) && Below(s.cells, c, s.threads[t][0])
    ensures ParentsBelow(StepRun(s, t, ch).cells) && OutsideSame(s, StepRun(s, t, ch), c)
    ensures RunEffect(s, t, ch).spawn == []
    ensures forall b :: b in RunEffect(s, t, ch).push ==> Below(StepRun(s, t, ch).cells, c, b)
  {
    RunReady(s, t, ch);
    RunGrows(s, t, ch);
    var a := s.threads[t][0];
    var u := StepRun(s, t, ch);
    ConfinedCell(a, s.cells[Target(a)], s.now, t, ch);
    forall b | b in RunEffect(s, t, ch).push ensures Below(u.cells, c, b) {
      ConfinedPush(s.cells, s.now, a, t, ch, c, b);
      BelowGrows(s.cells, u.cells, c, b);
    }
  }

  predicate Downward(a: Action) {
    a.Stop? || a.Hooks? || Concluding(a) || a.DetachCheck? || a.Detach?
  }

  lemma ConfinedCell(a: Action, c: Cell, now: int, t: nat, ch: Choice)
    requires Ready(a, c, now, ch) && Downward(a)
    ensures Exec(a, c, now, t, ch).spawn == []
    ensures a.DetachCheck? || a.Detach? ==> SameButHooks(c, Exec(a, c, now, t, ch).cell)
  {
  }

  lemma ConfinedPush(cells: seq<Cell>, now: int, a: Action, t: nat, ch: Choice, c: NodeId, b: Action)
    requires ParentsBelow(cells) && HooksOk(cells) && ActOk(cells, now, a) && Below(cells, c, a)
    requires Ready(a, cells[Target(a)], now, ch)
    requires b in Exec(a, cells[Target(a)], now, t, ch).push
    ensures Below(cells, c, b)
  {
    if a.Stop? {
      StopperPushes(a, cells[a.n], now, t, ch, b);
    } else if a.Hooks? {
      var k :| 0 <= k < |ch.order| && b == Stop(ch.order[k], a.hooks[ch.order[k]]);
      assert ChildOf(cells, b.n, a.n);
    }
  }

  /** A child's stop, with everything it leads to on its thread, never sets a flag of,
      changes a count of, or takes the cancel of a node that is not below the child. */
  lemma {:induction false} ChildStopIsConfined(s: State, t: nat, ls: seq<Label>, u: State, c: NodeId)
    requires Inv(s) && IsRun(s, ls, u) && t < |s.threads|
    requires forall l :: l in ls ==> l.Run? && l.t == t
    requires forall a :: a in s.threads[t] ==> Below(s.cells, c, a)
    ensures Inv(u) && |u.cells| == |s.cells| && OutsideSame(s, u, c)
    decreases |ls|
  {
    if ls != [] {
      assert ls[0] in ls;
      var ch := ls[0].choice;
      var v := Step(s, ls[0]);
      ConfinedStep(s, t, ch, c);
      RunGrows(s, t, ch);
      RunKeepsInv(s, t, ch);
      forall a | a in v.threads[t] ensures Below(v.cells, c, a) {
        if a !in RunEffect(s, t, ch).push { BelowGrows(s.cells, v.cells, c, a); }
      }
      ChildStopIsConfined(v, t, ls[1..], u, c);
      forall i | 0 <= i < |s.cells| && !Above(s.cells, c, i) ensures SameButHooks(s.cells[i], u.cells[i]) {
        PathFrame(s.cells, v.cells, i);
        assert SameButHooks(s.cells[i], v.cells[i]) && SameButHooks(v.cells[i], u.cells[i]);
      }
    }
  }

  lemma BelowGrows(cells: seq<Cell>, later: seq<Cell>, c: NodeId, a: Action)
    requires ParentsBelow(cells) && ParentsBelow(later) && CellsGrow(cells, later)
    requires Below(cells, c, a)
    ensures Below(later, c, a)
  {
    PathFrame(cells, later, if a.Detach? || a.DetachCheck? then a.child else a.n);
  }
}
