/**
  The grace period given to StopOnIdle never matters.  Erasing it from a state and
  from all calls commutes with every step.
 */
module StopTreeIdleGrace {
  import opened Options
  import opened StateNode
  import opened StopTree
  import opened StopTreeRuns

  function EraseNode(n: Node): Node {
    if n.stopOnIdle.Some? then n.(stopOnIdle := Some(0)) else n
  }

  function EraseCell(c: Cell): Cell {
    Cell(EraseNode(c.node), c.hist)
  }

  function EraseAction(a: Action): Action {
    if a.Idle? then Idle(a.n, 0) else a
  }

  function EraseProg(prog: seq<Action>): seq<Action> {
    seq(|prog|, i requires 0 <= i < |prog| => EraseAction(prog[i]))
  }

  function EraseCells(cells: seq<Cell>): seq<Cell> {
    seq(|cells|, i requires 0 <= i < |cells| => EraseCell(cells[i]))
  }

  function Erase(s: State): State {
    State(EraseCells(s.cells), EraseThreads(s.threads), s.now, s.panicked)
  }

  function EraseThreads(threads: seq<seq<Action>>): seq<seq<Action>> {
    seq(|threads|, t requires 0 <= t < |threads| => EraseProg(threads[t]))
  }

  function EraseLabel(l: Label): Label {
    if l.CallApi? && l.api.ApiIdle? then CallApi(l.t, ApiIdle(l.api.n, 0)) else l
  }

  function EraseLabels(ls: seq<Label>): seq<Label> {
    seq(|ls|, i requires 0 <= i < |ls| => EraseLabel(ls[i]))
  }

  lemma EraseKeepsParents(cells: seq<Cell>)
    requires ParentsBelow(cells)
    ensures ParentsBelow(EraseCells(cells))
  {
  }

  lemma {:induction false} ErasePath(cells: seq<Cell>, n: NodeId)
    requires ParentsBelow(cells) && n < |cells|
    ensures ParentsBelow(EraseCells(cells))
    ensures PathTo(EraseCells(cells), n) == PathTo(cells, n)
  {
    if cells[n].node.parent.Some? { ErasePath(cells, cells[n].node.parent.value); }
  }

  /** Erasing a section's outcome. */
  function EraseOutcome(out: Outcome): Outcome {
    out.(node := EraseNode(out.node))
  }

  lemma SoftStopErases(n: Node, grace: int, now: int)
    ensures EraseOutcome(SoftStop(n, grace, now)) == SoftStop(EraseNode(n), grace, now)
  {
  }

  /** Without tasks a soft stop does not look at its grace period. */
  lemma IdleStopIgnoresGrace(n: Node, g: int, h: int, now: int)
    requires n.count == 0
    ensures SoftStop(n, g, now) == SoftStop(n, h, now)
  {
  }

  lemma StopOnIdleErases(n: Node, grace: int, now: int)
    ensures EraseOutcome(StopOnIdle(n, grace, now)) == StopOnIdle(EraseNode(n), 0, now)
  {
    var m := n.(stopOnIdle := Some(grace));
    SoftStopErases(m, grace, now);
    assert EraseNode(m) == EraseNode(n).(stopOnIdle := Some(0));
    if n.count == 0 { IdleStopIgnoresGrace(EraseNode(m), grace, 0, now); }
  }

  lemma ApplyErases(n: Node, delta: int, now: int)
    ensures var a := ApplyLocked(n, delta, now);
      ApplyLocked(EraseNode(n), delta, now) == a.(out := EraseOutcome(a.out))
  {
    var m := n.(count := n.count + delta);
    assert EraseNode(m) == EraseNode(n).(count := n.count + delta);
    if m.count == 0 && m.stopOnIdle.Some? {
      SoftStopErases(m, m.stopOnIdle.value, now);
      IdleStopIgnoresGrace(EraseNode(m), m.stopOnIdle.value, 0, now);
    }
  }

  lemma ExecErases(a: Action, c: Cell, now: int, t: nat, ch: Choice)
    requires Shaped(a) && Allowed(a, ch)
    ensures Exec(EraseAction(a), EraseCell(c), now, t, ch)
            == Exec(a, c, now, t, ch).(cell := EraseCell(Exec(a, c, now, t, ch).cell))
  {
    if a.Inc? || a.Dec? { CountsErase(a, c, now, t, ch); }
    else if a.Stop? || a.Idle? { StopsErase(a, c, now, t, ch); }
    else { OthersErase(a, c, now, t, ch); }
  }

  lemma CountsErase(a: Action, c: Cell, now: int, t: nat, ch: Choice)
    requires Shaped(a) && (a.Inc? || a.Dec?)
    ensures Exec(a, EraseCell(c), now, t, ch)
            == Exec(a, c, now, t, ch).(cell := EraseCell(Exec(a, c, now, t, ch).cell))
  {
    ApplyErases(c.node, if a.Inc? then 1 else -1, now);
  }

  lemma StopsErase(a: Action, c: Cell, now: int, t: nat, ch: Choice)
    requires a.Stop? || a.Idle?
    ensures Exec(EraseAction(a), EraseCell(c), now, t, ch)
            == Exec(a, c, now, t, ch).(cell := EraseCell(Exec(a, c, now, t, ch).cell))
  {
    if a.Stop? { SoftStopErases(c.node, a.grace, now); }
    else { StopOnIdleErases(c.node, a.grace, now); }
  }

  lemma OthersErase(a: Action, c: Cell, now: int, t: nat, ch: Choice)
    requires Shaped(a) && Allowed(a, ch) && !a.Inc? && !a.Dec? && !a.Stop? && !a.Idle?
    ensures Exec(a, EraseCell(c), now, t, ch)
            == Exec(a, c, now, t, ch).(cell := EraseCell(Exec(a, c, now, t, ch).cell))
  {
  }

  lemma {:induction false} ActionsNotIdle(n: NodeId, jobs: seq<Job>)
    ensures forall a :: a in JobActions(n, jobs) ==> !a.Idle?
  {
    if jobs != [] { ActionsNotIdle(n, jobs[..|jobs| - 1]); }
  }

  lemma BackwardsNotIdle(n: NodeId, jobs: seq<Job>)
    ensures forall a :: a in Backwards(n, jobs) ==> !a.Idle?
  {
    ActionsNotIdle(n, Reversed(jobs));
  }

  lemma NoIdlePushed(a: Action, c: Cell, now: int, t: nat, ch: Choice)
    requires Shaped(a) && Allowed(a, ch)
    ensures var e := Exec(a, c, now, t, ch);
      EraseProg(e.push) == e.push && EraseProg(e.spawn) == e.spawn
  {
    if a.Dec? { BackwardsNotIdle(a.todo[0], ApplyLocked(c.node, -1, now).out.jobs); }
    if a.Stop? { BackwardsNotIdle(a.n, SoftStop(c.node, a.grace, now).jobs); }
    if a.Idle? { BackwardsNotIdle(a.n, StopOnIdle(c.node, a.grace, now).jobs); }
    if a.Expire? { BackwardsNotIdle(a.n, HardStop(c.node, ErrGracePeriodExpired).jobs); }
  }

  lemma EraseConcat(p: seq<Action>, q: seq<Action>)
    ensures EraseProg(p + q) == EraseProg(p) + EraseProg(q)
  {
  }

  lemma EraseUpdates(s: State, i: nat, c: Cell, t: nat, prog: seq<Action>)
    requires i < |s.cells| && t < |s.threads|
    ensures EraseCells(s.cells[i := c]) == EraseCells(s.cells)[i := EraseCell(c)]
    ensures EraseThreads(s.threads[t := prog]) == EraseThreads(s.threads)[t := EraseProg(prog)]
  {
  }

  lemma EraseAppend(threads: seq<seq<Action>>, prog: seq<Action>)
    ensures EraseThreads(threads + [prog]) == EraseThreads(threads) + [EraseProg(prog)]
  {
  }

  lemma EnabledErases(s: State, t: nat, ch: Choice)
    requires Enabled(s, Run(t, ch))
    ensures Enabled(Erase(s), Run(t, ch))
    ensures Erase(s).threads[t] == [EraseAction(s.threads[t][0])] + EraseProg(s.threads[t][1..])
    ensures Target(EraseAction(s.threads[t][0])) == Target(s.threads[t][0])
  {
  }

  lemma RunErases(s: State, t: nat, ch: Choice)
    requires Enabled(s, Run(t, ch))
    ensures Enabled(Erase(s), Run(t, ch))
    ensures StepRun(Erase(s), t, ch) == Erase(StepRun(s, t, ch))
  {
    EnabledErases(s, t, ch);
    var a := s.threads[t][0];
    var c := s.cells[Target(a)];
    ExecErases(a, c, s.now, t, ch);
    NoIdlePushed(a, c, s.now, t, ch);
    var e := Exec(a, c, s.now, t, ch);
    var rest := s.threads[t][1..];
    EraseConcat(e.push, rest);
    EraseUpdates(s, Target(a), e.cell, t, e.push + rest);
    EraseAppend(s.threads[t := e.push + rest], e.spawn);
    assert Erase(s).threads[t][1..] == EraseProg(rest);
  }

  lemma EraseApi(s: State, api: Api, erased: Api)
    requires ParentsBelow(s.cells) && ApiTargets(s, api)
    requires erased == if api.ApiIdle? then ApiIdle(api.n, 0) else api
    ensures ParentsBelow(Erase(s).cells)
    ensures ApiActions(Erase(s), erased) == EraseProg(ApiActions(s, api))
    ensures ApiCells(Erase(s), erased) == EraseCells(ApiCells(s, api))
  {
    EraseKeepsParents(s.cells);
    if api.ApiRun? { ErasePath(s.cells, api.n); }
  }

  lemma CallErases(s: State, t: nat, api: Api)
    requires ParentsBelow(s.cells) && Enabled(s, CallApi(t, api))
    ensures ParentsBelow(Erase(s).cells) && Enabled(Erase(s), EraseLabel(CallApi(t, api)))
    ensures Step(Erase(s), EraseLabel(CallApi(t, api))) == Erase(Step(s, CallApi(t, api)))
  {
    EraseApi(s, api, EraseLabel(CallApi(t, api)).api);
    EraseConcat(ApiActions(s, api), s.threads[t]);
    var prog := ApiActions(s, api) + s.threads[t];
    assert EraseThreads(s.threads[t := prog]) == EraseThreads(s.threads)[t := EraseProg(prog)];
  }

  lemma StepErases(s: State, l: Label)
    requires ParentsBelow(s.cells) && Enabled(s, l)
    ensures ParentsBelow(Erase(s).cells) && Enabled(Erase(s), EraseLabel(l))
    ensures Step(Erase(s), EraseLabel(l)) == Erase(Step(s, l))
  {
    EraseKeepsParents(s.cells);
    match l
    case Run(t, ch) => RunErases(s, t, ch);
    case CallApi(t, api) => CallErases(s, t, api);
    case NewThread => EraseAppend(s.threads, []);
    case Tick(_) =>
    case Fire(n, d) => EraseAppend(s.threads, [Expire(n, d)]); FireErases(s, n, d);
  }

  lemma FireErases(s: State, n: NodeId, d: int)
    requires Enabled(s, Fire(n, d))
    ensures Enabled(Erase(s), Fire(n, d))
    ensures EraseProg([Expire(n, d)]) == [Expire(n, d)]
  {
    assert Erase(s).cells[n] == EraseCell(s.cells[n]);
  }

  lemma {:induction false} RunsErase(s: State, ls: seq<Label>, u: State)
    requires IsRun(s, ls, u)
    ensures IsRun(Erase(s), EraseLabels(ls), Erase(u))
    decreases |ls|
  {
    if ls != [] {
      StepErases(s, ls[0]);
      RunsErase(Step(s, ls[0]), ls[1..], u);
      assert EraseLabels(ls)[1..] == EraseLabels(ls[1..]);
    }
  }

  lemma {:induction false} RunsAgree(s: State, ls: seq<Label>, u: State, v: State)
    requires IsRun(s, ls, u) && IsRun(s, ls, v)
    ensures u == v
    decreases |ls|
  {
    if ls != [] { RunsAgree(Step(s, ls[0]), ls[1..], u, v); }
  }

  /** Two runs that make the same steps and differ only in the grace periods passed to
      StopOnIdle end in the same counts, flags, causes, errors, histories and pending work. */
  lemma IdleGraceIrrelevant(s: State, ls: seq<Label>, u: State, r: State, ms: seq<Label>, v: State)
    requires IsRun(s, ls, u) && IsRun(r, ms, v)
    requires Erase(s) == Erase(r) && EraseLabels(ls) == EraseLabels(ms)
    ensures Erase(u) == Erase(v)
    ensures SameButIdle(u.cells, v.cells)
  {
    ErasedAgree(s, ls, u, r, ms, v);
    SameErased(Erase(u).cells, u.cells, v.cells);
  }

  lemma ErasedAgree(s: State, ls: seq<Label>, u: State, r: State, ms: seq<Label>, v: State)
    requires IsRun(s, ls, u) && IsRun(r, ms, v)
    requires Erase(s) == Erase(r) && EraseLabels(ls) == EraseLabels(ms)
    ensures Erase(u) == Erase(v)
  {
    RunsErase(s, ls, u);
    RunsErase(r, ms, v);
    RunsAgree(Erase(s), EraseLabels(ls), Erase(u), Erase(v));
  }

  ghost predicate SameButIdle(cells: seq<Cell>, others: seq<Cell>) {
    && |cells| == |others|
    && forall i :: 0 <= i < |cells| ==>
         && cells[i].hist == others[i].hist
         && cells[i].node.(stopOnIdle := None) == others[i].node.(stopOnIdle := None)
  }

  lemma SameErased(erased: seq<Cell>, cells: seq<Cell>, others: seq<Cell>)
    requires EraseCells(cells) == erased && EraseCells(others) == erased
    ensures SameButIdle(cells, others)
  {
    assert |cells| == |erased| == |others|;
    forall i | 0 <= i < |cells|
      ensures cells[i].hist == others[i].hist
      ensures cells[i].node.(stopOnIdle := None) == others[i].node.(stopOnIdle := None)
    {
      assert EraseCell(cells[i]) == erased[i] == EraseCell(others[i]);
      EraseOne(cells[i].node);
      EraseOne(others[i].node);
    }
  }

  lemma EraseOne(n: Node)
    ensures EraseNode(n).(stopOnIdle := None) == n.(stopOnIdle := None)
  {
  }
}
