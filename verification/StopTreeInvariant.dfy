/**
  The invariant of the stop/count protocol, and that every step keeps it.
 */
module StopTreeInvariant {
  import opened Options
  import opened StateNode
  import opened StopTree
  import opened StopTreeGauges
  import opened StopTreeLocal
  import opened StopTreeConclusion
  import opened StopTreePaths

  /** An action is well formed in a tree, at a time. */
  ghost predicate ActOk(cells: seq<Cell>, now: int, a: Action)
    requires ParentsBelow(cells)
  {
    && Shaped(a) && Target(a) < |cells|
    && (a.Check? ==> IsPath(cells, a.path))
    && (a.Inc? ==> IsPath(cells, a.done + a.todo))
    && (a.Body? || a.Handle? ==> IsPath(cells, a.path))
    && (a.Dec? ==> forall x :: x in a.todo ==> x < |cells|)
    && (a.Attach? || a.DetachCheck? || a.Detach? ==>
          a.child < |cells| && cells[a.child].node.parent == Some(a.p))
    && (a.DetachCheck? || a.Detach? ==> cells[a.child].node.stopping)
    && (a.Hooks? ==> forall k :: k in a.hooks ==> ChildOf(cells, k, a.n))
    && (a.Expire? ==> a.deadline in cells[a.n].hist.timers && a.deadline <= now)
    && (Concluding(a) ==> !cells[Target(a)].node.armed)
  }

  ghost predicate ProgOk(cells: seq<Cell>, now: int, prog: seq<Action>)
    requires ParentsBelow(cells)
  {
    forall a :: a in prog ==> ActOk(cells, now, a)
  }

  ghost predicate ActionsOk(s: State)
    requires ParentsBelow(s.cells)
  {
    forall t :: 0 <= t < |s.threads| ==> ProgOk(s.cells, s.now, s.threads[t])
  }

  ghost predicate HooksOk(cells: seq<Cell>) {
    forall i, k :: 0 <= i < |cells| && k in cells[i].node.hooks ==> ChildOf(cells, k, i)
  }

  ghost predicate ChildOf(cells: seq<Cell>, k: NodeId, i: NodeId) {
    k < |cells| && cells[k].node.parent == Some(i)
  }

  ghost predicate CellsOk(cells: seq<Cell>) {
    forall i :: 0 <= i < |cells| ==> CellOk(cells[i])
  }

  /** Conservation: a node's count is the number of increments not yet undone. */
  ghost predicate Counted(s: State) {
    forall i :: 0 <= i < |s.cells| ==> s.cells[i].node.count == ReadAll(Holds(i), s.threads)
  }

  ghost predicate Recorded(c: Cell, x: Error, owed: nat) {
    multiset(c.hist.received)[x] <= multiset(c.node.errs)[x] + owed
  }

  ghost predicate ErrorsKept(s: State) {
    forall i, x :: 0 <= i < |s.cells| ==> Recorded(s.cells[i], x, ReadAll(Owes(i, x), s.threads))
  }

  /** A child is stopping, or hooked to its parent, or work that stops it is pending. */
  ghost predicate Reached(s: State, k: NodeId)
    requires k < |s.cells|
  {
    var p := s.cells[k].node.parent;
    p.Some? && p.value < |s.cells| ==>
      || s.cells[k].node.stopping
      || k in s.cells[p.value].node.hooks
      || ReadAll(StopDue(k), s.threads) > 0
  }

  ghost predicate AllReached(s: State) {
    forall k :: 0 <= k < |s.cells| ==> Reached(s, k)
  }

  ghost predicate PendingOk(s: State, i: NodeId, t: nat)
    requires i < |s.cells| && t < |s.threads|
  {
    Fulfils(s.cells[i], t, Pending(i, s.threads[t]))
  }

  ghost predicate Scripted(s: State) {
    && (forall i, t :: 0 <= i < |s.cells| && 0 <= t < |s.threads| ==> PendingOk(s, i, t))
    && (forall i :: 0 <= i < |s.cells| && !s.cells[i].node.armed ==> s.cells[i].hist.runner < |s.threads|)
  }

  ghost predicate Inv(s: State) {
    && ParentsBelow(s.cells) && !s.panicked
    && CellsOk(s.cells) && ActionsOk(s) && HooksOk(s.cells)
    && Counted(s) && ErrorsKept(s) && AllReached(s) && Scripted(s)
  }

  lemma ActGrows(cells: seq<Cell>, later: seq<Cell>, now: int, then_: int, a: Action)
    requires ParentsBelow(cells) && ParentsBelow(later) && CellsGrow(cells, later) && now <= then_
    requires ActOk(cells, now, a)
    ensures ActOk(later, then_, a)
  {
    if a.Check? || a.Body? || a.Handle? {
      PathFrame(cells, later, a.path[|a.path| - 1]);
    } else if a.Inc? {
      var path := a.done + a.todo;
      PathFrame(cells, later, path[|path| - 1]);
    }
  }

  lemma ProgGrows(cells: seq<Cell>, later: seq<Cell>, now: int, then_: int, prog: seq<Action>)
    requires ParentsBelow(cells) && ParentsBelow(later) && CellsGrow(cells, later) && now <= then_
    requires ProgOk(cells, now, prog)
    ensures ProgOk(later, then_, prog)
  {
    forall a | a in prog ensures ActOk(later, then_, a) { ActGrows(cells, later, now, then_, a); }
  }

  // One step of a thread.

  lemma IncParent(cells: seq<Cell>, now: int, a: Action)
    requires ParentsBelow(cells) && a.Inc? && ActOk(cells, now, a)
    ensures a.done == [] <==> cells[a.todo[0]].node.parent.None?
  {
    var path := a.done + a.todo;
    PathFacts(cells, path[|path| - 1]);
    var k := |a.done|;
    assert path[k] == a.todo[0];
    assert k > 0 ==> cells[path[k]].node.parent == Some(path[k - 1]);
  }

  /** The first action of a thread may rely on what it needs. */
  lemma RunReady(s: State, t: nat, ch: Choice)
    requires Inv(s) && Enabled(s, Run(t, ch))
    ensures var a := s.threads[t][0];
      Ready(a, s.cells[Target(a)], s.now, ch) && ActOk(s.cells, s.now, a)
  {
    var a := s.threads[t][0];
    assert a in s.threads[t];
    assert CellOk(s.cells[Target(a)]);
    if a.Inc? {
      IncParent(s.cells, s.now, a);
    } else if a.Dec? {
      var g := Holds(a.todo[0]);
      ReadMember(g, s.threads[t], a);
      ReadThread(g, s.threads, t);
      CountFirst(a.todo, a.todo[0]);
    }
  }

  function RunEffect(s: State, t: nat, ch: Choice): Effect
    requires Enabled(s, Run(t, ch))
  {
    var a := s.threads[t][0];
    Exec(a, s.cells[Target(a)], s.now, t, ch)
  }

  lemma RunGrows(s: State, t: nat, ch: Choice)
    requires Inv(s) && Enabled(s, Run(t, ch))
    ensures var u := StepRun(s, t, ch);
      ParentsBelow(u.cells) && CellsGrow(s.cells, u.cells) && !u.panicked && CellsOk(u.cells)
  {
    RunReady(s, t, ch);
    var a := s.threads[t][0];
    ExecGrows(a, s.cells[Target(a)], s.now, t, ch);
    ExecKeepsCell(a, s.cells[Target(a)], s.now, t, ch);
  }

  lemma RunCounted(s: State, t: nat, ch: Choice)
    requires Inv(s) && Enabled(s, Run(t, ch))
    ensures Counted(StepRun(s, t, ch))
  {
    RunReady(s, t, ch);
    var a := s.threads[t][0];
    forall i | 0 <= i < |s.cells|
      ensures StepRun(s, t, ch).cells[i].node.count == ReadAll(Holds(i), StepRun(s, t, ch).threads)
    {
      ReadStep(Holds(i), s, t, ch);
      ExecHolds(i, a, s.cells[Target(a)], s.now, t, ch);
    }
  }

  lemma RunErrorsKept(s: State, t: nat, ch: Choice)
    requires Inv(s) && Enabled(s, Run(t, ch))
    ensures ErrorsKept(StepRun(s, t, ch))
  {
    RunReady(s, t, ch);
    var a := s.threads[t][0];
    var u := StepRun(s, t, ch);
    forall i, x | 0 <= i < |s.cells|
      ensures Recorded(u.cells[i], x, ReadAll(Owes(i, x), u.threads))
    {
      assert Recorded(s.cells[i], x, ReadAll(Owes(i, x), s.threads));
      ReadStep(Owes(i, x), s, t, ch);
      ExecOwes(i, x, a, s.cells[Target(a)], s.now, t, ch);
    }
  }

  lemma RunReached(s: State, t: nat, ch: Choice)
    requires Inv(s) && Enabled(s, Run(t, ch))
    ensures AllReached(StepRun(s, t, ch))
  {
    RunReady(s, t, ch);
    RunGrows(s, t, ch);
    forall k | 0 <= k < |s.cells| ensures Reached(StepRun(s, t, ch), k) {
      assert Reached(s, k);
      RunReachedOne(s, t, ch, k);
    }
  }

  lemma RunReachedOne(s: State, t: nat, ch: Choice, k: NodeId)
    requires Enabled(s, Run(t, ch)) && k < |s.cells| && Reached(s, k) && ParentsBelow(s.cells)
    requires var a := s.threads[t][0];
      Ready(a, s.cells[Target(a)], s.now, ch) && ActOk(s.cells, s.now, a)
    requires CellsGrow(s.cells, StepRun(s, t, ch).cells)
    ensures Reached(StepRun(s, t, ch), k)
  {
    var a := s.threads[t][0];
    var c := s.cells[Target(a)];
    var e := Exec(a, c, s.now, t, ch);
    ReadMember(StopDue(k), s.threads[t], a);
    ReadThread(StopDue(k), s.threads, t);
    ReadStep(StopDue(k), s, t, ch);
    ExecStopDue(k, a, c, s.now, t, ch);
    AttachReaches(k, a, c, s.now, t, ch);
    StaysReached(s.cells, s.now, a, e, k, ReadAll(StopDue(k), s.threads),
                 ReadProg(StopDue(k), e.push) + ReadProg(StopDue(k), e.spawn),
                 ReadAll(StopDue(k), StepRun(s, t, ch).threads));
  }

  ghost predicate ReachedIn(cells: seq<Cell>, k: NodeId, due: nat)
    requires k < |cells|
  {
    var p := cells[k].node.parent;
    p.Some? && p.value < |cells| ==>
      cells[k].node.stopping || k in cells[p.value].node.hooks || due > 0
  }

  /** The work that is due for k, less what the action was, plus more, is due later. */
  lemma StaysReached(cells: seq<Cell>, now: int, a: Action, e: Effect, k: NodeId, due: nat, more: nat, later: nat)
    requires ParentsBelow(cells) && ActOk(cells, now, a) && k < |cells| && ReachedIn(cells, k, due)
    requires Grows(cells[Target(a)], e.cell)
    requires Reading(StopDue(k), a) <= due && later == due - Reading(StopDue(k), a) + more
    requires Reading(StopDue(k), a) > 0 || k in cells[Target(a)].node.hooks ==>
      || more > 0 || k in e.cell.node.hooks
      || (a.Stop? && a.n == k && e.cell.node.stopping) || (a.Detach? && a.child == k)
    requires k in e.cell.node.hooks && k !in cells[Target(a)].node.hooks ==> a.Attach? && a.child == k
    requires Reading(StopDue(k), a) > 0 && !a.Attach? ==>
      more > 0 || (a.Stop? && a.n == k && e.cell.node.stopping)
    ensures ReachedIn(cells[Target(a) := e.cell], k, later)
  {
    var p, i := cells[k].node.parent, Target(a);
    if p.Some? && p.value < |cells| && !cells[k].node.stopping {
      if a.Attach? && a.child == k { assert i == p.value; }
      else if Reading(StopDue(k), a) > 0 { assert more > 0 || i == k; }
      else if due > 0 { assert later > 0; }
      else if i == p.value { assert i != k; }
    }
  }

  /** Only `Attach` can replace pending work for k by a hook. */
  lemma AttachReaches(k: NodeId, a: Action, c: Cell, now: int, t: nat, ch: Choice)
    requires Ready(a, c, now, ch)
    ensures var e := Exec(a, c, now, t, ch);
      k in e.cell.node.hooks && k !in c.node.hooks ==> a.Attach? && a.child == k
    ensures var e := Exec(a, c, now, t, ch);
      Reading(StopDue(k), a) > 0 && !a.Attach? ==>
        ReadProg(StopDue(k), e.push) > 0 || (a.Stop? && a.n == k && e.cell.node.stopping)
  {
    if Stopper(a) {
      StopperOutcome(a, c, now, t, ch);
      if a.Stop? { SoftStopDisarms(c.node, a.grace, now); }
    } else if a.Inc? {
      IncEffect(a, c, now);
    } else if a.Hooks? {
      ReadStops(StopDue(k), a.hooks, ch.order);
    } else {
      LightEffect(a, c, now, t, ch);
    }
  }

  lemma RunScripted(s: State, t: nat, ch: Choice)
    requires Inv(s) && Enabled(s, Run(t, ch))
    ensures Scripted(StepRun(s, t, ch))
  {
    RunReady(s, t, ch);
    RunGrows(s, t, ch);
    var u := StepRun(s, t, ch);
    forall i, r | 0 <= i < |u.cells| && 0 <= r < |u.threads| ensures PendingOk(u, i, r) {
      RunPendingOk(s, t, ch, i, r);
    }
    forall i | 0 <= i < |u.cells| && !u.cells[i].node.armed ensures u.cells[i].hist.runner < |u.threads| {
      var a := s.threads[t][0];
      ExecAdvances(a, s.cells[Target(a)], s.now, t, ch);
    }
  }

  lemma RunPendingOk(s: State, t: nat, ch: Choice, i: NodeId, r: nat)
    requires Inv(s) && Enabled(s, Run(t, ch))
    requires i < |s.cells| && r < |StepRun(s, t, ch).threads|
    ensures PendingOk(StepRun(s, t, ch), i, r)
  {
    RunReady(s, t, ch);
    var a := s.threads[t][0];
    ExecGrows(a, s.cells[Target(a)], s.now, t, ch);
    if i == Target(a) {
      ExecAdvances(a, s.cells[Target(a)], s.now, t, ch);
      PendingAtTarget(s, t, ch, r);
    } else {
      ExecElsewhere(i, a, s.cells[Target(a)], s.now, t, ch);
      PendingElsewhere(s, t, ch, i, r);
    }
  }

  lemma PendingAfter(s: State, t: nat, ch: Choice, i: NodeId)
    requires Enabled(s, Run(t, ch))
    ensures var a, e := s.threads[t][0], RunEffect(s, t, ch);
      && Pending(i, s.threads[t]) == ItemOf(i, a) + Pending(i, s.threads[t][1..])
      && Pending(i, StepRun(s, t, ch).threads[t]) == Pending(i, e.push) + Pending(i, s.threads[t][1..])
  {
    PendingConcat(i, RunEffect(s, t, ch).push, s.threads[t][1..]);
  }

  lemma PendingElsewhere(s: State, t: nat, ch: Choice, i: NodeId, r: nat)
    requires Scripted(s) && Enabled(s, Run(t, ch))
    requires i < |s.cells| && r < |StepRun(s, t, ch).threads| && i != Target(s.threads[t][0])
    requires var e := RunEffect(s, t, ch);
      Pending(i, e.push) == [] && Pending(i, e.spawn) == [] && ItemOf(i, s.threads[t][0]) == []
    ensures PendingOk(StepRun(s, t, ch), i, r)
  {
    PendingAfter(s, t, ch, i);
    if r < |s.threads| { assert PendingOk(s, i, r); }
  }

  lemma PendingAtTarget(s: State, t: nat, ch: Choice, r: nat)
    requires Scripted(s) && Enabled(s, Run(t, ch)) && r < |StepRun(s, t, ch).threads|
    requires var a, e := s.threads[t][0], RunEffect(s, t, ch);
      var c := s.cells[Target(a)];
      && CellOk(c) && Grows(c, e.cell)
      && Advances(a, c, e, t) && Pending(Target(a), e.spawn) == []
    ensures PendingOk(StepRun(s, t, ch), Target(s.threads[t][0]), r)
  {
    var a := s.threads[t][0];
    var i := Target(a);
    PendingAfter(s, t, ch, i);
    assert PendingOk(s, i, t);
    if r == t {
      FulfilsSelf(a, s.cells[i], RunEffect(s, t, ch), t, Pending(i, s.threads[t][1..]));
    } else {
      if r < |s.threads| { assert PendingOk(s, i, r); }
      PendingAtOther(s, t, ch, r, if r < |s.threads| then Pending(i, s.threads[r]) else []);
    }
  }

  lemma PendingAtOther(s: State, t: nat, ch: Choice, r: nat, p: seq<Item>)
    requires Enabled(s, Run(t, ch)) && r < |StepRun(s, t, ch).threads| && r != t
    requires var a, e := s.threads[t][0], RunEffect(s, t, ch);
      var c := s.cells[Target(a)];
      && CellOk(c) && Grows(c, e.cell) && Advances(a, c, e, t)
      && Fulfils(c, t, ItemOf(Target(a), a) + Pending(Target(a), s.threads[t][1..])) && Fulfils(c, r, p)
      && p == Pending(Target(a), StepRun(s, t, ch).threads[r])
    ensures PendingOk(StepRun(s, t, ch), Target(s.threads[t][0]), r)
  {
    var a := s.threads[t][0];
    FulfilsOther(a, s.cells[Target(a)], RunEffect(s, t, ch), t, Pending(Target(a), s.threads[t][1..]), r, p);
  }

  lemma RunHooksOk(s: State, t: nat, ch: Choice)
    requires Inv(s) && Enabled(s, Run(t, ch))
    ensures HooksOk(StepRun(s, t, ch).cells)
  {
    RunReady(s, t, ch);
    RunGrows(s, t, ch);
    var a := s.threads[t][0];
    var u := StepRun(s, t, ch);
    forall i, k | 0 <= i < |u.cells| && k in u.cells[i].node.hooks
      ensures ChildOf(u.cells, k, i)
    {
      AttachReaches(k, a, s.cells[Target(a)], s.now, t, ch);
      if k in s.cells[i].node.hooks {
        assert ChildOf(s.cells, k, i);
      } else {
        assert i == Target(a) && a.Attach? && a.child == k;
      }
      assert Grows(s.cells[k], u.cells[k]);
    }
  }

  // The work that an action leads to is well formed.

  lemma {:induction false} DuesMember(n: NodeId, cbs: seq<Callback>, b: Action)
    requires b in Dues(n, cbs)
    ensures b.Due? && b.n == n
  {
    if b in Dues(n, cbs[1..]) { DuesMember(n, cbs[1..], b); }
  }

  lemma StopperPushes(a: Action, c: Cell, now: int, t: nat, ch: Choice, b: Action)
    requires Ready(a, c, now, ch) && Stopper(a)
    requires b in Exec(a, c, now, t, ch).push
    ensures
      || ((b.Due? || b.Cancel?) && b.n == Target(a) && !Exec(a, c, now, t, ch).cell.node.armed)
      || (b.Hooks? && b.n == Target(a) && b.hooks == c.node.hooks)
      || (a.Dec? && |a.todo| > 1 && b == Dec(a.todo[1..]))
  {
    StopperOutcome(a, c, now, t, ch);
    var out := StopOutcome(a, c, now);
    WorkOrder(Target(a), Taken(c.node, out), out.hard, c.node.deferred);
    if out.hard.Some? && b in Dues(Target(a), c.node.deferred) {
      DuesMember(Target(a), c.node.deferred, b);
    }
  }

  lemma RunPushes(s: State, t: nat, ch: Choice, b: Action)
    requires Inv(s) && Enabled(s, Run(t, ch))
    requires b in RunEffect(s, t, ch).push || b in RunEffect(s, t, ch).spawn
    ensures ParentsBelow(StepRun(s, t, ch).cells)
    ensures ActOk(StepRun(s, t, ch).cells, s.now, b)
  {
    RunReady(s, t, ch);
    RunGrows(s, t, ch);
    var a := s.threads[t][0];
    var u := StepRun(s, t, ch);
    ActGrows(s.cells, u.cells, s.now, s.now, a);
    if Stopper(a) {
      StopperRunPushes(s, t, ch, b);
    } else if a.Inc? {
      IncPushes(s, t, ch, b);
    } else {
      LightPushes(s.cells, u.cells, s.now, a, t, ch, b);
    }
  }

  lemma StopperRunPushes(s: State, t: nat, ch: Choice, b: Action)
    requires Inv(s) && Enabled(s, Run(t, ch)) && Stopper(s.threads[t][0])
    requires b in RunEffect(s, t, ch).push || b in RunEffect(s, t, ch).spawn
    requires ParentsBelow(StepRun(s, t, ch).cells) && CellsGrow(s.cells, StepRun(s, t, ch).cells)
    requires ActOk(StepRun(s, t, ch).cells, s.now, s.threads[t][0])
    requires Ready(s.threads[t][0], s.cells[Target(s.threads[t][0])], s.now, ch)
    ensures ActOk(StepRun(s, t, ch).cells, s.now, b)
  {
    var a := s.threads[t][0];
    StopperOutcome(a, s.cells[Target(a)], s.now, t, ch);
    StopperPushes(a, s.cells[Target(a)], s.now, t, ch, b);
    StopperNext(s, StepRun(s, t, ch).cells, a, b);
  }

  lemma StopperNext(s: State, later: seq<Cell>, a: Action, b: Action)
    requires ParentsBelow(s.cells) && ParentsBelow(later) && CellsGrow(s.cells, later) && HooksOk(s.cells)
    requires ActOk(later, s.now, a) && Stopper(a) && Target(a) < |s.cells|
    requires
      || ((b.Due? || b.Cancel?) && b.n == Target(a) && !later[Target(a)].node.armed)
      || (b.Hooks? && b.n == Target(a) && b.hooks == s.cells[Target(a)].node.hooks)
      || (a.Dec? && |a.todo| > 1 && b == Dec(a.todo[1..]))
    ensures ActOk(later, s.now, b)
  {
    if b.Hooks? {
      forall k | k in b.hooks ensures ChildOf(later, k, b.n) { assert ChildOf(s.cells, k, b.n); }
    } else if b.Dec? {
      assert b.todo[0] in a.todo;
      assert forall x :: x in b.todo ==> x in a.todo;
    }
  }

  lemma LightPushes(cells: seq<Cell>, later: seq<Cell>, now: int, a: Action, t: nat, ch: Choice, b: Action)
    requires ParentsBelow(cells) && ParentsBelow(later) && CellsGrow(cells, later)
    requires ActOk(cells, now, a) && ActOk(later, now, a) && !Stopper(a) && !a.Inc?
    requires Ready(a, cells[Target(a)], now, ch)
    requires b in Exec(a, cells[Target(a)], now, t, ch).push || b in Exec(a, cells[Target(a)], now, t, ch).spawn
    ensures ActOk(later, now, b)
  {
    if a.Body? || a.Handle? || a.Check? {
      PathPushes(later, now, a, cells[Target(a)], t, ch, b);
    } else if a.Hooks? {
      var k :| 0 <= k < |ch.order| && b == Stop(ch.order[k], a.hooks[ch.order[k]]);
      assert ChildOf(later, b.n, a.n);
    } else {
      NodePushes(cells, later, now, a, t, ch, b);
    }
  }

  /** What the remaining actions lead to stays at their node, its parent or its child. */
  lemma NodePushes(cells: seq<Cell>, later: seq<Cell>, now: int, a: Action, t: nat, ch: Choice, b: Action)
    requires ParentsBelow(cells) && ParentsBelow(later) && CellsGrow(cells, later)
    requires ActOk(cells, now, a) && ActOk(later, now, a)
    requires Light(a) && !a.Body? && !a.Handle? && !a.Check?
    requires Ready(a, cells[Target(a)], now, ch)
    requires b in Exec(a, cells[Target(a)], now, t, ch).push || b in Exec(a, cells[Target(a)], now, t, ch).spawn
    ensures ActOk(later, now, b)
  {
    LightEffect(a, cells[Target(a)], now, t, ch);
  }

  lemma PathPushes(cells: seq<Cell>, now: int, a: Action, c: Cell, t: nat, ch: Choice, b: Action)
    requires ParentsBelow(cells) && (a.Body? || a.Handle? || a.Check?) && ActOk(cells, now, a)
    requires b in Exec(a, c, now, t, ch).push || b in Exec(a, c, now, t, ch).spawn
    ensures ActOk(cells, now, b)
  {
    var path := a.path;
    if a.Check? {
      assert (a.k > 1 && b == Check(a.k - 1, path, a.mode)) || b == Inc([], path, a.mode);
    } else {
      assert b == Dec(path) || (a.Body? && b.Handle? && b.path == path) || (b.Stop? && b.n == path[|path| - 1]);
    }
    PathNext(cells, now, path, b);
  }

  lemma PathNext(cells: seq<Cell>, now: int, path: seq<NodeId>, b: Action)
    requires ParentsBelow(cells) && IsPath(cells, path)
    requires
      || (b.Check? && b.path == path && 1 <= b.k <= |path|)
      || (b.Inc? && b.done == [] && b.todo == path)
      || b == Dec(path)
      || (b.Handle? && b.path == path)
      || (b.Stop? && b.n == path[|path| - 1])
    ensures ActOk(cells, now, b)
  {
    PathBounded(cells, path);
    if b.Check? { assert path[b.k - 1] in path; }
    else if b.Inc? { assert [] + path == path && path[0] in path; }
    else if b.Dec? { assert path[0] in path; }
  }

  lemma IncPushes(s: State, t: nat, ch: Choice, b: Action)
    requires Inv(s) && Enabled(s, Run(t, ch)) && s.threads[t][0].Inc?
    requires b in RunEffect(s, t, ch).push || b in RunEffect(s, t, ch).spawn
    ensures ParentsBelow(StepRun(s, t, ch).cells)
    ensures ActOk(StepRun(s, t, ch).cells, s.now, b)
  {
    RunReady(s, t, ch);
    RunGrows(s, t, ch);
    var a := s.threads[t][0];
    var u := StepRun(s, t, ch);
    ActGrows(s.cells, u.cells, s.now, s.now, a);
    IncEffect(a, s.cells[Target(a)], s.now);
    var e := RunEffect(s, t, ch);
    assert b in e.push + e.spawn;
    IncNext(u.cells, s.now, a, b);
  }

  lemma IncNext(cells: seq<Cell>, now: int, a: Action, b: Action)
    requires ParentsBelow(cells) && a.Inc? && ActOk(cells, now, a)
    requires
      || (a.done != [] && b == Dec(a.done))
      || (|a.todo| > 1 && b == Inc(a.done + [a.todo[0]], a.todo[1..], a.mode))
      || (|a.todo| == 1 && b == Body(a.done + [a.todo[0]], a.mode))
    ensures ActOk(cells, now, b)
  {
    var path := a.done + a.todo;
    PathFacts(cells, path[|path| - 1]);
    if b.Dec? {
      forall x | x in a.done ensures x < |cells| {
        var k :| 0 <= k < |a.done| && a.done[k] == x;
        assert path[k] == x;
      }
      assert a.done[0] in a.done;
    } else if b.Inc? {
      assert b.done + b.todo == path;
      assert b.todo[0] == path[|a.done| + 1];
    } else {
      assert b.path == path;
    }
  }

  lemma RunActionsOk(s: State, t: nat, ch: Choice)
    requires Inv(s) && Enabled(s, Run(t, ch))
    ensures ParentsBelow(StepRun(s, t, ch).cells)
    ensures ActionsOk(StepRun(s, t, ch))
  {
    RunGrows(s, t, ch);
    var u := StepRun(s, t, ch);
    var e := RunEffect(s, t, ch);
    forall r | 0 <= r < |u.threads| ensures ProgOk(u.cells, u.now, u.threads[r]) {
      if r == t {
        forall b | b in u.threads[t] ensures ActOk(u.cells, u.now, b) {
          if b in e.push { RunPushes(s, t, ch, b); }
          else {
            assert b in s.threads[t];
            ActGrows(s.cells, u.cells, s.now, u.now, b);
          }
        }
      } else if r < |s.threads| {
        ProgGrows(s.cells, u.cells, s.now, u.now, s.threads[r]);
      } else {
        forall b | b in u.threads[r] ensures ActOk(u.cells, u.now, b) { RunPushes(s, t, ch, b); }
      }
    }
  }

  lemma RunKeepsInv(s: State, t: nat, ch: Choice)
    requires Inv(s) && Enabled(s, Run(t, ch))
    ensures Inv(StepRun(s, t, ch))
  {
    RunGrows(s, t, ch);
    RunActionsOk(s, t, ch);
    RunHooksOk(s, t, ch);
    RunCounted(s, t, ch);
    RunErrorsKept(s, t, ch);
    RunReached(s, t, ch);
    RunScripted(s, t, ch);
  }
}
