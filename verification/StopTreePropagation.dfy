/**
  What a stop carries with it: the hooks stop each child with the grace period that the
  child is configured with, and where every grace period is positive no task is cut off
  before it has passed.
 */
module StopTreePropagation {
  import opened Options
  import opened StateNode
  import opened StopTree
  import opened StopTreeLocal
  import opened StopTreePaths
  import opened StopTreeInvariant
  import opened StopTreeRuns
  import opened StopTreeTheorems

  /** Running the hooks of a node leads to exactly one stop of each hooked child, with the
      grace period of its hook. */
  lemma HooksStopChildren(n: NodeId, hooks: map<NodeId, int>, c: Cell, now: int, t: nat, ch: Choice)
    requires Allowed(Hooks(n, hooks), ch)
    ensures var e := Exec(Hooks(n, hooks), c, now, t, ch);
      && e.cell == c && e.spawn == [] && |e.push| == |hooks|
      && (forall a :: a in e.push ==> a.Stop? && a.n in hooks && a.grace == hooks[a.n])
      && (forall k :: k in hooks ==> Stop(k, hooks[k]) in e.push)
  {
    var push := Exec(Hooks(n, hooks), c, now, t, ch).push;
    forall k | k in hooks ensures Stop(k, hooks[k]) in push {
      var i :| 0 <= i < |ch.order| && ch.order[i] == k;
      assert push[i] == Stop(k, hooks[k]);
    }
  }

  // Hooks hold the grace period that the child was made with.

  ghost predicate Configured(cells: seq<Cell>, k: NodeId, grace: int) {
    k < |cells| && cells[k].node.grace == grace
  }

  ghost predicate ActConfigured(cells: seq<Cell>, a: Action) {
    && (a.Attach? ==> Configured(cells, a.child, a.grace))
    && (a.Hooks? ==> forall k :: k in a.hooks ==> Configured(cells, k, a.hooks[k]))
  }

  ghost predicate HooksConfigured(cells: seq<Cell>) {
    forall i, k :: 0 <= i < |cells| && k in cells[i].node.hooks ==> Configured(cells, k, cells[i].node.hooks[k])
  }

  ghost predicate AllConfigured(s: State) {
    && HooksConfigured(s.cells)
    && forall t, a :: 0 <= t < |s.threads| && a in s.threads[t] ==> ActConfigured(s.cells, a)
  }

  lemma ConfiguredGrows(cells: seq<Cell>, later: seq<Cell>, a: Action)
    requires CellsGrow(cells, later) && ActConfigured(cells, a)
    ensures ActConfigured(later, a)
  {
  }

  /** An action adds a hook only by Attach, and hands on only the hooks of its node. */
  lemma ExecHooks(a: Action, c: Cell, now: int, t: nat, ch: Choice)
    requires Ready(a, c, now, ch)
    ensures var e := Exec(a, c, now, t, ch);
      && (forall k :: k in e.cell.node.hooks ==>
            || (k in c.node.hooks && e.cell.node.hooks[k] == c.node.hooks[k])
            || (a.Attach? && a.child == k && e.cell.node.hooks[k] == a.grace))
      && (forall b :: b in e.push || b in e.spawn ==> !b.Attach? && (b.Hooks? ==> b.hooks == c.node.hooks))
  {
    if Stopper(a) {
      StopperHooks(a, c, now, t, ch);
    } else if a.Inc? {
      IncEffect(a, c, now);
      forall b | b in Exec(a, c, now, t, ch).push || b in Exec(a, c, now, t, ch).spawn
        ensures !b.Attach? && !b.Hooks?
      {
        assert b in ExecInc(a, c, now).push + ExecInc(a, c, now).spawn;
      }
    } else {
      OtherHooks(a, c, now, t, ch);
    }
  }

  lemma StopperHooks(a: Action, c: Cell, now: int, t: nat, ch: Choice)
    requires Ready(a, c, now, ch) && Stopper(a)
    ensures var e := Exec(a, c, now, t, ch);
      && (e.cell.node.hooks == c.node.hooks || e.cell.node.hooks == map[]) && e.spawn == []
      && forall b :: b in e.push ==> !b.Attach? && (b.Hooks? ==> b.hooks == c.node.hooks)
  {
    StopperOutcome(a, c, now, t, ch);
    forall b | b in Exec(a, c, now, t, ch).push ensures !b.Attach? && (b.Hooks? ==> b.hooks == c.node.hooks) {
      StopperPushes(a, c, now, t, ch, b);
    }
  }

  lemma OtherHooks(a: Action, c: Cell, now: int, t: nat, ch: Choice)
    requires Shaped(a) && Allowed(a, ch) && !Stopper(a) && !a.Inc?
    ensures var e := Exec(a, c, now, t, ch);
      && (forall k :: k in e.cell.node.hooks ==>
            || (k in c.node.hooks && e.cell.node.hooks[k] == c.node.hooks[k])
            || (a.Attach? && a.child == k && e.cell.node.hooks[k] == a.grace))
      && e.spawn == [] && forall b :: b in e.push ==> !b.Attach? && !b.Hooks?
  {
  }

  lemma RunConfigured(s: State, t: nat, ch: Choice)
    requires Inv(s) && Enabled(s, Run(t, ch)) && AllConfigured(s)
    ensures AllConfigured(StepRun(s, t, ch))
  {
    RunReady(s, t, ch);
    RunGrows(s, t, ch);
    var a, u, e := s.threads[t][0], StepRun(s, t, ch), RunEffect(s, t, ch);
    assert a in s.threads[t] && ActConfigured(s.cells, a);
    ExecHooks(a, s.cells[Target(a)], s.now, t, ch);
    forall r, b | 0 <= r < |u.threads| && b in u.threads[r] ensures ActConfigured(u.cells, b) {
      if b in e.push || b in e.spawn {
        assert ActConfigured(s.cells, b);
      } else {
        assert b in s.threads[r];
      }
      ConfiguredGrows(s.cells, u.cells, b);
    }
    RunHooksConfigured(s, u.cells, a, e);
  }

  lemma RunHooksConfigured(s: State, later: seq<Cell>, a: Action, e: Effect)
    requires Shaped(a) && Target(a) < |s.cells| && later == s.cells[Target(a) := e.cell]
    requires HooksConfigured(s.cells) && ActConfigured(s.cells, a) && CellsGrow(s.cells, later)
    requires forall k :: k in e.cell.node.hooks ==>
      || (k in s.cells[Target(a)].node.hooks && e.cell.node.hooks[k] == s.cells[Target(a)].node.hooks[k])
      || (a.Attach? && a.child == k && e.cell.node.hooks[k] == a.grace)
    ensures HooksConfigured(later)
  {
  }

  lemma CallConfigured(s: State, t: nat, api: Api)
    requires Inv(s) && Enabled(s, CallApi(t, api)) && AllConfigured(s)
    ensures AllConfigured(Step(s, CallApi(t, api)))
  {
    var u := Step(s, CallApi(t, api));
    assert CellsGrow(s.cells, u.cells);
    forall r, b | 0 <= r < |u.threads| && b in u.threads[r] ensures ActConfigured(u.cells, b) {
      if b in s.threads[r] { ConfiguredGrows(s.cells, u.cells, b); }
    }
  }

  lemma StepConfigured(s: State, l: Label)
    requires Inv(s) && Enabled(s, l) && AllConfigured(s)
    ensures AllConfigured(Step(s, l))
  {
    match l
    case Run(t, ch) => RunConfigured(s, t, ch);
    case CallApi(t, api) => CallConfigured(s, t, api);
    case _ =>
  }

  lemma {:induction false} RunsConfigured(s: State, ls: seq<Label>, u: State)
    requires Inv(s) && IsRun(s, ls, u) && AllConfigured(s)
    ensures AllConfigured(u)
    decreases |ls|
  {
    if ls != [] {
      StepConfigured(s, ls[0]);
      StepKeepsInv(s, ls[0]);
      RunsConfigured(Step(s, ls[0]), ls[1..], u);
    }
  }

  /** In every reachable state each armed hook, and each hook taken by a stop and not yet
      run, has the grace period of its child. */
  lemma HooksHoldGrace(s: State, n: NodeId, k: NodeId)
    requires Reachable(s) && n < |s.cells|
    ensures k in s.cells[n].node.hooks ==>
      k < |s.cells| && s.cells[k].node.parent == Some(n) && s.cells[n].node.hooks[k] == s.cells[k].node.grace
    ensures forall hooks :: Somewhere(s, Hooks(n, hooks)) && k in hooks ==>
      k < |s.cells| && s.cells[k].node.parent == Some(n) && hooks[k] == s.cells[k].node.grace
  {
    var now, ls :| IsRun(Init(now), ls, s);
    ReachableInv(s);
    RunsConfigured(Init(now), ls, s);
    if k in s.cells[n].node.hooks { assert ChildOf(s.cells, k, n); }
    forall hooks | Somewhere(s, Hooks(n, hooks)) && k in hooks
      ensures k < |s.cells| && s.cells[k].node.parent == Some(n) && hooks[k] == s.cells[k].node.grace
    {
      var t :| 0 <= t < |s.threads| && Hooks(n, hooks) in s.threads[t];
      assert ActOk(s.cells, s.now, Hooks(n, hooks)) && ActConfigured(s.cells, Hooks(n, hooks));
      assert ChildOf(s.cells, k, n);
    }
  }

  /** The stop that a hook leads to leaves a child that is configured with a grace period,
      and has tasks, its cancel: it is stopping, with a deadline at most that grace period
      from now.  A child without tasks, or without grace, is hard-stopped at once. */
  lemma PropagatedStop(s: State, t: nat, ch: Choice)
    requires Reachable(s) && Enabled(s, Run(t, ch)) && s.threads[t][0].Stop?
    requires var a := s.threads[t][0]; a.grace == s.cells[a.n].node.grace && s.cells[a.n].node.armed
    ensures var a, u := s.threads[t][0], StepRun(s, t, ch);
      var c, d := s.cells[a.n].node, u.cells[a.n].node;
      && d.stopping && d.hooks == map[] && d.count == c.count
      && (d.armed <==> c.count > 0 && c.grace > 0)
      && (d.armed ==> d.stopAt.Some? && d.stopAt.value <= s.now + c.grace)
      && (d.armed && c.stopAt.None? ==> d.stopAt == Some(s.now + c.grace))
  {
    ReachableInv(s);
    var a := s.threads[t][0];
    assert CellOk(s.cells[a.n]);
    SoftStopChoice(s.cells[a.n].node, a.grace, s.now);
    SoftStopDisarms(s.cells[a.n].node, a.grace, s.now);
  }

  // Runs in which every grace period is at least g.

  predicate PatientLabel(l: Label, g: int) {
    l.CallApi? ==> (l.api.ApiStop? || l.api.ApiNew? ==> l.api.grace >= g)
  }

  ghost predicate PatientCell(c: Cell, g: int, now: int) {
    && c.node.grace >= g && !c.hist.rushed
    && (forall k :: k in c.node.hooks ==> c.node.hooks[k] >= g)
    && (c.hist.deadlines != [] ==> c.hist.since <= now)
    && (forall d :: d in c.hist.deadlines ==> d >= c.hist.since + g)
  }

  predicate PatientAct(a: Action, g: int) {
    && (a.Stop? || a.Attach? ==> a.grace >= g)
    && (a.Hooks? ==> forall k :: k in a.hooks ==> a.hooks[k] >= g)
  }

  ghost predicate PatientCells(cells: seq<Cell>, g: int, now: int) {
    forall i :: 0 <= i < |cells| ==> PatientCell(cells[i], g, now)
  }

  ghost predicate PatientProg(prog: seq<Action>, g: int) {
    forall a :: a in prog ==> PatientAct(a, g)
  }

  ghost predicate Patient(s: State, g: int) {
    PatientCells(s.cells, g, s.now) && forall t :: 0 <= t < |s.threads| ==> PatientProg(s.threads[t], g)
  }

  lemma StopIsPatient(a: Action, c: Cell, now: int, t: nat, g: int)
    requires a.Stop? && a.grace >= g > 0 && PatientCell(c, g, now) && CellOk(c)
    ensures var out := SoftStop(c.node, a.grace, now);
      PatientCell(Cell(out.node, NoteSoft(c.hist, c.node, out, a.grace, now, t)), g, now)
  {
    SoftStopDisarms(c.node, a.grace, now);
  }

  lemma ExecIsPatient(a: Action, c: Cell, now: int, t: nat, ch: Choice, g: int)
    requires Ready(a, c, now, ch) && g > 0 && PatientCell(c, g, now) && PatientAct(a, g)
    ensures PatientCell(Exec(a, c, now, t, ch).cell, g, now)
    ensures PatientProg(Exec(a, c, now, t, ch).push, g) && PatientProg(Exec(a, c, now, t, ch).spawn, g)
  {
    ExecHooks(a, c, now, t, ch);
    if a.Stop? {
      StopIsPatient(a, c, now, t, g);
      StopperPatient(a, c, now, t, ch);
    } else if Stopper(a) {
      StopperOutcome(a, c, now, t, ch);
      StopperPatient(a, c, now, t, ch);
    } else if a.Inc? {
      IncEffect(a, c, now);
      forall b | b in Exec(a, c, now, t, ch).push || b in Exec(a, c, now, t, ch).spawn ensures PatientAct(b, g) {
        assert b in ExecInc(a, c, now).push + ExecInc(a, c, now).spawn;
      }
    } else {
      LightIsPatient(a, c, now, t, ch, g);
    }
  }

  lemma StopperPatient(a: Action, c: Cell, now: int, t: nat, ch: Choice)
    requires Ready(a, c, now, ch) && Stopper(a)
    ensures Exec(a, c, now, t, ch).spawn == []
    ensures forall b :: b in Exec(a, c, now, t, ch).push ==> !b.Stop? && !b.Attach?
  {
    StopperOutcome(a, c, now, t, ch);
    forall b | b in Exec(a, c, now, t, ch).push ensures !b.Stop? && !b.Attach? {
      StopperPushes(a, c, now, t, ch, b);
    }
  }

  lemma LightIsPatient(a: Action, c: Cell, now: int, t: nat, ch: Choice, g: int)
    requires Shaped(a) && Allowed(a, ch) && !Stopper(a) && !a.Inc?
    requires PatientCell(c, g, now) && PatientAct(a, g)
    ensures PatientCell(Exec(a, c, now, t, ch).cell, g, now)
    ensures PatientProg(Exec(a, c, now, t, ch).push, g) && Exec(a, c, now, t, ch).spawn == []
  {
    if a.Hooks? { HooksStopChildren(a.n, a.hooks, c, now, t, ch); }
  }

  lemma StepIsPatient(s: State, l: Label, g: int)
    requires Inv(s) && Enabled(s, l) && g > 0 && Patient(s, g) && PatientLabel(l, g)
    ensures Patient(Step(s, l), g)
  {
    match l
    case Run(t, ch) =>
      RunReady(s, t, ch);
      var a := s.threads[t][0];
      assert PatientProg(s.threads[t], g);
      ExecIsPatient(a, s.cells[Target(a)], s.now, t, ch, g);
      ProgIsPatient(RunEffect(s, t, ch).push, s.threads[t], g);
    case CallApi(t, api) =>
      assert PatientProg(s.threads[t], g);
      CallIsPatient(s, t, api, g);
    case _ =>
  }

  lemma ProgIsPatient(push: seq<Action>, prog: seq<Action>, g: int)
    requires prog != [] && PatientProg(push, g) && PatientProg(prog, g)
    ensures PatientProg(push + prog[1..], g)
  {
  }

  lemma CallIsPatient(s: State, t: nat, api: Api, g: int)
    requires Inv(s) && Enabled(s, CallApi(t, api)) && Patient(s, g) && PatientLabel(CallApi(t, api), g)
    ensures Patient(Step(s, CallApi(t, api)), g)
  {
    var u := Step(s, CallApi(t, api));
    assert PatientProg(ApiActions(s, api), g);
    assert PatientProg(s.threads[t], g);
  }

  lemma {:induction false} RunsArePatient(s: State, ls: seq<Label>, u: State, g: int)
    requires Inv(s) && IsRun(s, ls, u) && g > 0 && Patient(s, g)
    requires forall l :: l in ls ==> PatientLabel(l, g)
    ensures Inv(u) && Patient(u, g)
    decreases |ls|
  {
    if ls != [] {
      assert ls[0] in ls;
      StepIsPatient(s, ls[0], g);
      StepKeepsInv(s, ls[0]);
      RunsArePatient(Step(s, ls[0]), ls[1..], u, g);
    }
  }

  /** On every run in which all nodes are configured with, and all calls of Stop are given,
      a grace period of at least g, no task anywhere in the tree is cut off sooner: a node
      whose cancel is taken for an expired grace period has been asked to stop at least g
      earlier.  So neither propagation nor an error handler shortens a grace period. */
  lemma NoTaskIsRushed(now: int, ls: seq<Label>, s: State, g: int, i: NodeId)
    requires IsRun(Init(now), ls, s) && g > 0 && forall l :: l in ls ==> PatientLabel(l, g)
    requires i < |s.cells| && s.cells[i].hist.cause == Some(ErrGracePeriodExpired)
    ensures s.cells[i].hist.deadlines != [] && s.cells[i].hist.hardAt >= s.cells[i].hist.since + g
  {
    assert Inv(Init(now)) && Patient(Init(now), g);
    RunsArePatient(Init(now), ls, s, g);
    assert CellOk(s.cells[i]) && PatientCell(s.cells[i], g, s.now);
  }
}
