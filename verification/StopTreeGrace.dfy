/**
  The grace period is enforced: a stopping node with tasks always has a running timer at
  its deadline, and that timer completes the hard stop although no task moves.
 */
module StopTreeGrace {
  import opened Options
  import opened StateNode
  import opened StopTree
  import opened StopTreeLocal
  import opened StopTreeConclusion
  import opened StopTreeInvariant
  import opened StopTreeRuns
  import opened StopTreeTheorems
  import opened StopTreeTermination

  /** A node that is stopping and has its cancel still has a timer, which will fire. */
  ghost predicate Bounded(c: Cell) {
    c.node.armed && c.node.stopping ==> c.node.timer.Some? && c.node.timer.value in c.hist.timers
  }

  ghost predicate AllBounded(cells: seq<Cell>) {
    forall i :: 0 <= i < |cells| ==> Bounded(cells[i])
  }

  lemma SoftStopBounds(c: Cell, grace: int, now: int, t: nat)
    requires CellOk(c) && Bounded(c)
    ensures var out := SoftStop(c.node, grace, now);
      Bounded(Cell(out.node, NoteSoft(c.hist, c.node, out, grace, now, t)))
  {
  }

  lemma ExecBounds(a: Action, c: Cell, now: int, t: nat, ch: Choice)
    requires Ready(a, c, now, ch) && Bounded(c)
    ensures Bounded(Exec(a, c, now, t, ch).cell)
  {
    if a.Stop? {
      SoftStopBounds(c, a.grace, now, t);
    } else if Stopper(a) {
      StopperOutcome(a, c, now, t, ch);
      StopperBounds(a, c, now);
    } else if a.Inc? {
      IncEffect(a, c, now);
    } else {
      LightBounds(a, c, now, t, ch);
    }
  }

  /** The other stopping calls leave the timer alone or take the cancel. */
  lemma StopperBounds(a: Action, c: Cell, now: int)
    requires (a.Dec? || a.Idle? || a.Expire?) && CellOk(c)
    requires a.Dec? ==> c.node.count >= 1
    ensures var n := StopOutcome(a, c, now).node;
      n.armed ==> n.timer == c.node.timer && n.stopping == c.node.stopping
  {
  }

  lemma LightBounds(a: Action, c: Cell, now: int, t: nat, ch: Choice)
    requires Shaped(a) && Allowed(a, ch) && !Stopper(a) && !a.Inc?
    ensures var e := Exec(a, c, now, t, ch);
      && e.cell.node.timer == c.node.timer && e.cell.node.armed == c.node.armed
      && e.cell.node.stopping == c.node.stopping && e.cell.hist.timers == c.hist.timers
  {
  }

  lemma StepBounds(s: State, l: Label)
    requires Inv(s) && Enabled(s, l) && AllBounded(s.cells)
    ensures AllBounded(Step(s, l).cells)
  {
    if l.Run? {
      RunReady(s, l.t, l.choice);
      var a := s.threads[l.t][0];
      ExecBounds(a, s.cells[Target(a)], s.now, l.t, l.choice);
    }
  }

  lemma {:induction false} RunBounds(s: State, ls: seq<Label>, u: State)
    requires Inv(s) && IsRun(s, ls, u) && AllBounded(s.cells)
    ensures AllBounded(u.cells)
    decreases |ls|
  {
    if ls != [] {
      StepBounds(s, ls[0]);
      StepKeepsInv(s, ls[0]);
      RunBounds(Step(s, ls[0]), ls[1..], u);
    }
  }

  /** While a node is stopping and its cancel is not yet taken, it has tasks, and a timer
      runs at the earliest deadline asked for, which fires as soon as that is due. */
  lemma GraceTimerRuns(s: State, i: NodeId)
    requires Reachable(s) && i < |s.cells| && s.cells[i].node.stopping && s.cells[i].node.armed
    ensures var n, earliest := s.cells[i].node, Earliest(s.cells[i].hist.deadlines);
      && n.count > 0 && earliest.Some? && n.timer == earliest
      && forall later :: later >= s.now && later >= earliest.value ==>
           Enabled(s.(now := later), Fire(i, earliest.value))
  {
    ReachableInv(s);
    var now, ls :| IsRun(Init(now), ls, s);
    RunBounds(Init(now), ls, s);
    assert CellOk(s.cells[i]) && Bounded(s.cells[i]);
  }

  /** The timer of an unspent node takes its cancel, whatever the count is. */
  lemma ExpiryTakesCancel(s: State, t: nat, ch: Choice)
    requires Reachable(s) && Enabled(s, Run(t, ch)) && s.threads[t][0].Expire?
    ensures var i := s.threads[t][0].n;
      var c, d := s.cells[i], StepRun(s, t, ch).cells[i];
      && !d.node.armed && d.node.count == c.node.count && d.hist.accepted == c.hist.accepted
      && (c.node.armed ==> d.hist.cause == Some(ErrGracePeriodExpired) && d.hist.runner == t)
  {
    ReachableInv(s);
    RunReady(s, t, ch);
    var a := s.threads[t][0];
    StopperOutcome(a, s.cells[a.n], s.now, t, ch);
    StopperHistory(a, s.cells[a.n], s.now, t, ch);
  }

  /** The hard stop is complete when the thread that took the cancel has no work left,
      even if tasks and other threads go on. */
  lemma RunnerConcludes(s: State, i: NodeId)
    requires Reachable(s) && i < |s.cells| && !s.cells[i].node.armed
    requires s.cells[i].hist.runner < |s.threads| && s.threads[s.cells[i].hist.runner] == []
    ensures s.cells[i].hist.cause.Some?
    ensures s.cells[i].hist.trace == Script(s.cells[i].hist.accepted, s.cells[i].hist.cause.value)
  {
    ReachableInv(s);
    assert PendingOk(s, i, s.cells[i].hist.runner);
    assert s.cells[i].hist.trace + [] == s.cells[i].hist.trace;
  }

  /** The threads below `first` have not moved. */
  ghost predicate Untouched(s: State, u: State, first: nat) {
    first <= |s.threads| && |s.threads| <= |u.threads| && u.threads[..first] == s.threads[..first]
  }

  /** A thread can be run to its end on its own, while no other moves and no time passes. */
  lemma {:induction false} ThreadDrains(s: State, t: nat) returns (ls: seq<Label>, u: State)
    requires Inv(s) && t < |s.threads|
    ensures IsRun(s, ls, u) && Untouched(s, u, t) && t < |u.threads| && u.threads[t] == [] && u.now == s.now
    decreases TotalCost(s)
  {
    if s.threads[t] == [] {
      ls, u := [], s;
    } else {
      NeverBlocked(s, t);
      var ch :| Enabled(s, Run(t, ch));
      RunCostsSomething(s, t, ch);
      RunKeepsInv(s, t, ch);
      var rest;
      rest, u := ThreadDrains(StepRun(s, t, ch), t);
      ls := [Run(t, ch)] + rest;
      RunCons(s, Run(t, ch), rest, u);
    }
  }

  /** Time passes to the deadline and the timer fires on a thread of its own. */
  lemma TimerFires(s: State, i: NodeId) returns (v: State)
    requires Reachable(s) && i < |s.cells| && s.cells[i].node.stopping && s.cells[i].node.armed
    ensures Earliest(s.cells[i].hist.deadlines).Some?
    ensures var d := Earliest(s.cells[i].hist.deadlines).value;
      var later := if d > s.now then d else s.now;
      && v == s.(now := later, threads := s.threads + [[Expire(i, d)]])
      && Reachable(v) && IsRun(s, [Tick(later), Fire(i, d)], v)
  {
    GraceTimerRuns(s, i);
    ReachableInv(s);
    var d := Earliest(s.cells[i].hist.deadlines).value;
    var later := if d > s.now then d else s.now;
    var w := Step(s, Tick(later));
    v := Step(w, Fire(i, d));
    assert IsRun(v, [], v);
    RunCons(w, Fire(i, d), [], v);
    RunCons(s, Tick(later), [Fire(i, d)] + [], v);
    assert [Tick(later)] + ([Fire(i, d)] + []) == [Tick(later), Fire(i, d)];
    ReachableRun(s, [Tick(later), Fire(i, d)], v);
  }

  /** From every reachable state in which a stopping node waits for its tasks, the node can
      be hard-stopped by its deadline without any of them: time passes to the earliest
      deadline asked for, the timer fires, and its thread alone takes the cancel, runs all
      accepted callbacks, last accepted first, and completes the cancel, while every task
      and every other thread is where it was. */
  lemma GraceIsEnforced(s: State, i: NodeId) returns (ls: seq<Label>, u: State)
    requires Reachable(s) && i < |s.cells| && s.cells[i].node.stopping && s.cells[i].node.armed
    ensures IsRun(s, ls, u) && Untouched(s, u, |s.threads|)
    ensures Earliest(s.cells[i].hist.deadlines).Some?
    ensures var d := Earliest(s.cells[i].hist.deadlines).value; u.now == if d > s.now then d else s.now
    ensures i < |u.cells| && !u.cells[i].node.armed
    ensures var h := u.cells[i].hist;
      && h.cause == Some(ErrGracePeriodExpired) && h.accepted == s.cells[i].hist.accepted
      && h.trace == Script(h.accepted, ErrGracePeriodExpired)
  {
    var v := TimerFires(s, i);
    var t := |s.threads|;
    var d := Earliest(s.cells[i].hist.deadlines).value;
    ls, u := Expires(v, i, t);
    var start := [Tick(v.now), Fire(i, d)];
    RunJoin(s, start, v, ls, u);
    ls := start + ls;
    assert v.threads[..t] == s.threads;
  }

  lemma Expires(v: State, i: NodeId, t: nat) returns (ls: seq<Label>, u: State)
    requires Reachable(v) && i < |v.cells| && v.cells[i].node.armed
    requires t < |v.threads| && |v.threads[t]| == 1 && v.threads[t][0].Expire? && v.threads[t][0].n == i
    ensures IsRun(v, ls, u) && Untouched(v, u, t) && u.now == v.now
    ensures i < |u.cells| && !u.cells[i].node.armed
    ensures var h := u.cells[i].hist;
      && h.cause == Some(ErrGracePeriodExpired) && h.accepted == v.cells[i].hist.accepted
      && h.trace == Script(h.accepted, ErrGracePeriodExpired)
  {
    ReachableInv(v);
    NeverBlocked(v, t);
    var ch :| Enabled(v, Run(t, ch));
    ExpiryTakesCancel(v, t, ch);
    var w := Step(v, Run(t, ch));
    ReachableStep(v, Run(t, ch));
    ReachableInv(w);
    ls, u := ThreadDrains(w, t);
    RunFixes(w, ls, u, i);
    RunnerStays(w, ls, u, i);
    RunCons(v, Run(t, ch), ls, u);
    ReachableRun(w, ls, u);
    RunnerConcludes(u, i);
    ls := [Run(t, ch)] + ls;
  }

  lemma {:induction false} RunnerStays(s: State, ls: seq<Label>, u: State, i: NodeId)
    requires Inv(s) && IsRun(s, ls, u) && i < |s.cells| && !s.cells[i].node.armed
    ensures i < |u.cells| && u.cells[i].hist.runner == s.cells[i].hist.runner
    decreases |ls|
  {
    if ls != [] {
      StepKeepsInv(s, ls[0]);
      StepFixes(s, ls[0], i);
      RunnerStep(s, ls[0], i);
      RunnerStays(Step(s, ls[0]), ls[1..], u, i);
    }
  }

  lemma RunnerStep(s: State, l: Label, i: NodeId)
    requires Inv(s) && Enabled(s, l) && i < |s.cells| && !s.cells[i].node.armed
    ensures Step(s, l).cells[i].hist.runner == s.cells[i].hist.runner
  {
    if l.Run? {
      RunReady(s, l.t, l.choice);
      var a := s.threads[l.t][0];
      ExecAdvances(a, s.cells[Target(a)], s.now, l.t, l.choice);
      ExecGrows(a, s.cells[Target(a)], s.now, l.t, l.choice);
    }
  }
}
