/**
  What the calls of user code come to: a failing task stops its node through the default
  handler, errors are recorded, callbacks are kept or run, a new node is attached, and an
  acquire succeeds exactly if no node on its path is stopping.
 */
module StopTreeCalls {
  import opened Options
  import opened StateNode
  import opened StopTree
  import opened StopTreeLocal
  import opened StopTreePaths
  import opened StopTreeInvariant
  import opened StopTreeRuns
  import opened StopTreeTheorems
  import opened StopTreeLiveness

  // Obligations: work that stays pending until it has had its effect.

  datatype Duty = StopNode(n: NodeId) | RecordError(n: NodeId, e: Error)

  /** The action will see to the duty. */
  predicate Serves(a: Action, d: Duty) {
    match d
    case StopNode(n) =>
      (a.Stop? && a.n == n) || (a.Handle? && a.stops && a.path != [] && a.path[|a.path| - 1] == n)
    case RecordError(n, e) =>
      || (a.Report? && a.n == n && a.err == e)
      || (a.Returned? && a.n == n && a.result == Some(e))
      || (a.Handle? && a.path != [] && a.path[|a.path| - 1] == n && a.err == e)
  }

  predicate Fulfilled(c: Cell, d: Duty) {
    match d
    case StopNode(_) => c.node.stopping
    case RecordError(_, e) => e in c.node.errs
  }

  ghost predicate Assured(s: State, d: Duty) {
    d.n < |s.cells| && (Fulfilled(s.cells[d.n], d) || exists a :: Somewhere(s, a) && Serves(a, d))
  }

  lemma ExecServes(a: Action, c: Cell, now: int, t: nat, ch: Choice, d: Duty)
    requires Ready(a, c, now, ch) && Serves(a, d) && Target(a) == d.n
    ensures var e := Exec(a, c, now, t, ch);
      Fulfilled(e.cell, d) || exists b :: b in e.push && Serves(b, d)
  {
    if d.RecordError? {
      ExecRecords(a, c, now, t, ch, d.e);
    } else if a.Stop? {
      SoftStopDisarms(c.node, a.grace, now);
    } else {
      var push := Exec(a, c, now, t, ch).push;
      assert push[0] == Stop(d.n, c.node.grace) && push[0] in push;
    }
  }

  lemma ExecRecords(a: Action, c: Cell, now: int, t: nat, ch: Choice, e: Error)
    requires Shaped(a) && Serves(a, RecordError(Target(a), e))
    ensures e in Exec(a, c, now, t, ch).cell.node.errs
  {
    assert Exec(a, c, now, t, ch).cell.node.errs == c.node.errs + [e];
    assert (c.node.errs + [e])[|c.node.errs|] == e;
  }

  lemma ExecKeepsFulfilled(a: Action, c: Cell, now: int, t: nat, ch: Choice, d: Duty)
    requires Ready(a, c, now, ch) && Fulfilled(c, d)
    ensures Fulfilled(Exec(a, c, now, t, ch).cell, d)
  {
    if Stopper(a) { StopperOutcome(a, c, now, t, ch); }
    else if a.Inc? { IncEffect(a, c, now); }
    else { LightKeepsErrors(a, c, now, t, ch); }
  }

  lemma LightKeepsErrors(a: Action, c: Cell, now: int, t: nat, ch: Choice)
    requires Shaped(a) && Allowed(a, ch) && !Stopper(a) && !a.Inc?
    ensures c.node.errs <= Exec(a, c, now, t, ch).cell.node.errs
    ensures Exec(a, c, now, t, ch).cell.node.stopping == c.node.stopping
  {
  }

  lemma RunAssures(s: State, t: nat, ch: Choice, d: Duty)
    requires Inv(s) && Enabled(s, Run(t, ch)) && Assured(s, d)
    ensures Assured(StepRun(s, t, ch), d)
  {
    RunReady(s, t, ch);
    var a, u := s.threads[t][0], StepRun(s, t, ch);
    var c := s.cells[Target(a)];
    if Fulfilled(s.cells[d.n], d) {
      if Target(a) == d.n { ExecKeepsFulfilled(a, c, s.now, t, ch, d); }
    } else {
      var b :| Somewhere(s, b) && Serves(b, d);
      var r :| 0 <= r < |s.threads| && b in s.threads[r];
      if r == t && b == a {
        ServesAtTarget(a, d);
        ExecServes(a, c, s.now, t, ch, d);
        ServesPushed(s, t, ch, d);
      } else {
        assert b in u.threads[r];
        assert Somewhere(u, b);
      }
    }
  }

  lemma ServesAtTarget(a: Action, d: Duty)
    requires Shaped(a) && Serves(a, d)
    ensures Target(a) == d.n
  {
  }

  lemma ServesPushed(s: State, t: nat, ch: Choice, d: Duty)
    requires Enabled(s, Run(t, ch)) && Target(s.threads[t][0]) == d.n
    requires var e := RunEffect(s, t, ch); Fulfilled(e.cell, d) || exists b :: b in e.push && Serves(b, d)
    ensures Assured(StepRun(s, t, ch), d)
  {
    var e, u := RunEffect(s, t, ch), StepRun(s, t, ch);
    if !Fulfilled(e.cell, d) {
      var b :| b in e.push && Serves(b, d);
      assert b in u.threads[t];
      assert Somewhere(u, b);
    }
  }

  lemma StepAssures(s: State, l: Label, d: Duty)
    requires Inv(s) && Enabled(s, l) && Assured(s, d)
    ensures Assured(Step(s, l), d)
  {
    if l.Run? {
      RunAssures(s, l.t, l.choice, d);
    } else if !Fulfilled(s.cells[d.n], d) {
      var b :| Somewhere(s, b) && Serves(b, d);
      var r :| 0 <= r < |s.threads| && b in s.threads[r];
      assert b in Step(s, l).threads[r];
      assert Somewhere(Step(s, l), b);
    }
  }

  lemma {:induction false} RunsAssure(s: State, ls: seq<Label>, u: State, d: Duty)
    requires Inv(s) && IsRun(s, ls, u) && Assured(s, d)
    ensures Inv(u) && Assured(u, d)
    decreases |ls|
  {
    if ls != [] {
      StepAssures(s, ls[0], d);
      StepKeepsInv(s, ls[0]);
      RunsAssure(Step(s, ls[0]), ls[1..], u, d);
    }
  }

  ghost predicate Done(s: State) {
    forall t :: 0 <= t < |s.threads| ==> s.threads[t] == []
  }

  /** A duty that work is pending for is fulfilled on every continuation that has no work left. */
  lemma DutyDone(s: State, ls: seq<Label>, u: State, d: Duty)
    requires Inv(s) && Assured(s, d) && IsRun(s, ls, u) && Done(u)
    ensures d.n < |u.cells| && Fulfilled(u.cells[d.n], d)
  {
    RunsAssure(s, ls, u, d);
    assert forall a :: !Somewhere(u, a);
  }

  // Tasks and callbacks that return errors.

  /** How a task's return is handled.  Without an error, for Call, and for a handler that is
      neither of the package's, nothing but the release follows; the recording handler
      records the error; the stopping one also stops the node, with the grace period that
      the node is configured with, before the release. */
  lemma BodyMeaning(path: seq<NodeId>, mode: Mode, c: Cell, now: int, t: nat, ch: Choice)
    requires path != []
    ensures var e := Exec(Body(path, mode), c, now, t, ch);
      if mode.Call? || ch.err.None? || mode.handler.HandlerOther? then e == Effect(c, [Dec(path)], [], false)
      else e.cell.node == c.node && e.push == [Handle(path, ch.err.value, mode.handler == HandlerStop)]
    ensures forall e, stops :: var h := Exec(Handle(path, e, stops), c, now, t, ch);
      && h.cell.node == c.node.(errs := c.node.errs + [e])
      && h.push == (if stops then [Stop(path[|path| - 1], c.node.grace)] else []) + [Dec(path)]
  {
  }

  /** What becomes of an accepted callback: it is run, it returns, and with an error or not it
      is then done; one that was not accepted is run at once. */
  lemma CallbackMeaning(n: NodeId, cb: Callback, c: Cell, now: int, t: nat, ch: Choice)
    ensures Exec(Due(n, cb), c, now, t, ch) == Effect(c, [Running(n, cb)], [], false)
    ensures Exec(Running(n, cb), c, now, t, ch).push == [Returned(n, cb, ch.err)]
    ensures forall err :: var e := Exec(Returned(n, cb, err), c, now, t, ch);
      && e.push == [] && e.cell.hist.trace == c.hist.trace + [Ran(cb)]
      && e.cell.node == c.node.(errs := c.node.errs + if err.Some? then [err.value] else [])
    ensures Exec(RunNow(n), c, now, t, ch).push == if ch.err.Some? then [Report(n, ch.err.value)] else []
  {
    assert c.node.errs + [] == c.node.errs;
  }

  /** A task that fails under the default handler stops its node: from the moment it returns
      its error, on every continuation, once no work is left, the error is recorded and the
      node is stopping, has no tasks, and its hard stop is complete. */
  lemma FailingTaskStops(s: State, t: nat, ch: Choice, ls: seq<Label>, u: State)
    requires Reachable(s) && ParentsBelow(s.cells) && Enabled(s, Run(t, ch))
    requires var a := s.threads[t][0]; a.Body? && a.mode == Go(HandlerStop) && ch.err.Some?
    requires IsRun(Step(s, Run(t, ch)), ls, u) && Done(u)
    ensures var n := Target(s.threads[t][0]);
      && n < |u.cells| && u.cells[n].node.stopping && ch.err.value in u.cells[n].node.errs
      && Concluded(u.cells[n])
  {
    ReachableInv(s);
    var a, v := s.threads[t][0], Step(s, Run(t, ch));
    var n := Target(a);
    BodyMeaning(a.path, a.mode, s.cells[n], s.now, t, ch);
    var h := Handle(a.path, ch.err.value, true);
    assert h in v.threads[t] && Somewhere(v, h);
    ReachableStep(s, Run(t, ch));
    ReachableInv(v);
    assert Serves(h, StopNode(n)) && Serves(h, RecordError(n, ch.err.value));
    DutyDone(v, ls, u, StopNode(n));
    DutyDone(v, ls, u, RecordError(n, ch.err.value));
    ReachableRun(v, ls, u);
    AskedConcludes(u, n);
  }

  lemma ErrorServed(a: Action, c: Cell, now: int, t: nat, ch: Choice)
    requires Shaped(a) && ch.err.Some?
    requires a.Running? || a.RunNow? || (a.Body? && a.mode.Go? && !a.mode.handler.HandlerOther?)
    ensures exists b :: b in Exec(a, c, now, t, ch).push && Serves(b, RecordError(Target(a), ch.err.value))
  {
    var push := Exec(a, c, now, t, ch).push;
    assert push[0] in push && Serves(push[0], RecordError(Target(a), ch.err.value));
  }

  /** Every error is recorded that a recording handler receives, that a callback returns, be
      it deferred or run at once, and that user code adds. */
  lemma ErrorsAreRecorded(s: State, t: nat, ch: Choice, ls: seq<Label>, u: State)
    requires Reachable(s) && ParentsBelow(s.cells) && Enabled(s, Run(t, ch)) && ch.err.Some?
    requires var a := s.threads[t][0];
      a.Running? || a.RunNow? || (a.Body? && a.mode.Go? && !a.mode.handler.HandlerOther?)
    requires IsRun(Step(s, Run(t, ch)), ls, u) && Done(u)
    ensures var n := Target(s.threads[t][0]); n < |u.cells| && ch.err.value in u.cells[n].node.errs
  {
    ReachableInv(s);
    var a, v := s.threads[t][0], Step(s, Run(t, ch));
    var n := Target(a);
    ErrorServed(a, s.cells[n], s.now, t, ch);
    ServesPushed(s, t, ch, RecordError(n, ch.err.value));
    StepKeepsInv(s, Run(t, ch));
    DutyDone(v, ls, u, RecordError(n, ch.err.value));
  }

  // The calls.

  lemma CallPushes(s: State, t: nat, api: Api, a: Action)
    requires Inv(s) && Enabled(s, CallApi(t, api)) && a in ApiActions(s, api)
    ensures Inv(Step(s, CallApi(t, api))) && Somewhere(Step(s, CallApi(t, api)), a)
  {
    StepKeepsInv(s, CallApi(t, api));
    assert a in Step(s, CallApi(t, api)).threads[t];
  }

  /** AddError records its error. */
  lemma AddErrorRecords(s: State, t: nat, n: NodeId, e: Error, ls: seq<Label>, u: State)
    requires Reachable(s) && ParentsBelow(s.cells) && Enabled(s, CallApi(t, ApiError(n, e)))
    requires IsRun(Step(s, CallApi(t, ApiError(n, e))), ls, u) && Done(u)
    ensures n < |u.cells| && e in u.cells[n].node.errs
  {
    ReachableInv(s);
    CallPushes(s, t, ApiError(n, e), Report(n, e));
    DutyDone(Step(s, CallApi(t, ApiError(n, e))), ls, u, RecordError(n, e));
  }

  /** A call, carried out by its thread up to the end of its first section. */
  function Called(s: State, t: nat, api: Api, ch: Choice): State
    requires ParentsBelow(s.cells) && Enabled(s, CallApi(t, api))
    requires ParentsBelow(Step(s, CallApi(t, api)).cells) && Enabled(Step(s, CallApi(t, api)), Run(t, ch))
  {
    StepRun(Step(s, CallApi(t, api)), t, ch)
  }

  /** Stop makes the node stop, with exactly the grace period it is given. */
  lemma StopCall(s: State, t: nat, n: NodeId, grace: int, ch: Choice)
    requires Reachable(s) && ParentsBelow(s.cells) && Enabled(s, CallApi(t, ApiStop(n, grace)))
    requires Enabled(Step(s, CallApi(t, ApiStop(n, grace))), Run(t, ch))
    ensures var c, d := s.cells[n].node, Called(s, t, ApiStop(n, grace), ch).cells[n].node;
      && d.stopping && d.hooks == map[] && d.count == c.count
      && (c.armed ==> (d.armed <==> c.count > 0 && grace > 0))
      && (d.armed ==> d.stopAt == if c.stopAt.Some? && c.stopAt.value <= s.now + grace then c.stopAt
                                  else Some(s.now + grace))
  {
    ReachableInv(s);
    assert CellOk(s.cells[n]);
    StopSection(s.cells[n].node, grace, s.now);
    var v := Step(s, CallApi(t, ApiStop(n, grace)));
    assert v.threads[t][0] == Stop(n, grace) && v.cells == s.cells;
    assert Called(s, t, ApiStop(n, grace), ch).cells[n].node == SoftStop(s.cells[n].node, grace, s.now).node;
  }

  lemma StopSection(c: Node, grace: int, now: int)
    requires Lifecycle(c)
    ensures var d := SoftStop(c, grace, now).node;
      && d.stopping && d.hooks == map[] && d.count == c.count
      && (c.armed ==> (d.armed <==> c.count > 0 && grace > 0))
      && (d.armed ==> d.stopAt == if c.stopAt.Some? && c.stopAt.value <= now + grace then c.stopAt
                                  else Some(now + grace))
  {
    SoftStopDisarms(c, grace, now);
    if c.armed { SoftStopChoice(c, grace, now); }
  }

  /** StopOnIdle stops a node at once exactly if it has no tasks, and otherwise marks it. */
  lemma IdleCall(s: State, t: nat, n: NodeId, grace: int, ch: Choice)
    requires Reachable(s) && ParentsBelow(s.cells) && Enabled(s, CallApi(t, ApiIdle(n, grace)))
    requires Enabled(Step(s, CallApi(t, ApiIdle(n, grace))), Run(t, ch))
    ensures var c, d := s.cells[n].node, Called(s, t, ApiIdle(n, grace), ch).cells[n].node;
      && d.stopOnIdle == Some(grace) && d.count == c.count
      && (d.stopping <==> c.stopping || c.count == 0)
      && (c.count > 0 ==> d == c.(stopOnIdle := Some(grace)))
  {
    ReachableInv(s);
    assert CellOk(s.cells[n]);
    assert Step(s, CallApi(t, ApiIdle(n, grace))).threads[t][0] == Idle(n, grace);
    StopOnIdleKeepsLifecycle(s.cells[n].node, grace, s.now);
  }

  /** Defer runs the callback at once exactly if the node is stopping and has no tasks;
      otherwise the callback is kept, last. */
  lemma DeferCall(s: State, t: nat, n: NodeId, cb: Callback, ch: Choice)
    requires Reachable(s) && ParentsBelow(s.cells) && Enabled(s, CallApi(t, ApiDefer(n, cb)))
    requires Enabled(Step(s, CallApi(t, ApiDefer(n, cb))), Run(t, ch))
    ensures var c, u := s.cells[n].node, Called(s, t, ApiDefer(n, cb), ch);
      if c.stopping && c.count == 0 then u.cells == s.cells && u.threads[t] == [RunNow(n)] + s.threads[t]
      else u.cells[n].node == c.(deferred := c.deferred + [cb]) && u.threads[t] == s.threads[t]
  {
    var v := Step(s, CallApi(t, ApiDefer(n, cb)));
    assert v.threads[t] == [Defer(n, cb)] + s.threads[t];
    assert v.threads[t][1..] == s.threads[t];
    assert s.cells[n := s.cells[n]] == s.cells;
  }

  /** A new node is made running and empty.  With a parent, it is hooked to the parent with
      its own grace period, or stopped at once if the parent is stopping. */
  lemma NewCall(s: State, t: nat, p: NodeId, grace: int, ch: Choice)
    requires Reachable(s) && ParentsBelow(s.cells) && Enabled(s, CallApi(t, ApiNew(Some(p), grace)))
    requires ParentsBelow(Step(s, CallApi(t, ApiNew(Some(p), grace))).cells)
    requires Enabled(Step(s, CallApi(t, ApiNew(Some(p), grace))), Run(t, ch))
    ensures var u := Called(s, t, ApiNew(Some(p), grace), ch);
      && u.cells[|s.cells|].node == Fresh(Some(p), grace)
      && (if s.cells[p].node.stopping then u.threads[t] == [Stop(|s.cells|, grace)] + s.threads[t]
          else u.threads[t] == s.threads[t]
               && u.cells[p].node == s.cells[p].node.(hooks := s.cells[p].node.hooks[|s.cells| := grace]))
  {
    var v := Step(s, CallApi(t, ApiNew(Some(p), grace)));
    assert v.threads[t] == [Attach(p, |s.cells|, grace)] + s.threads[t];
    assert v.threads[t][1..] == s.threads[t];
  }

  // Acquires.

  const ANY := Choice([], None, false)

  /** The thread performs its first action. */
  lemma One(s: State, t: nat, a: Action, rest: seq<Action>) returns (u: State)
    requires Inv(s) && t < |s.threads| && s.threads[t] == [a] + rest && !a.Hooks?
    ensures Enabled(s, Run(t, ANY)) && u == StepRun(s, t, ANY) && Inv(u) && IsRun(s, [Run(t, ANY)], u)
    ensures var e := Exec(a, s.cells[Target(a)], s.now, t, ANY);
      && u.cells == s.cells[Target(a) := e.cell] && u.threads[t] == e.push + rest
      && u.threads == (if e.spawn == [] then s.threads[t := e.push + rest]
                       else s.threads[t := e.push + rest] + [e.spawn])
  {
    assert s.threads[t][0] == a && s.threads[t][1..] == rest;
    assert a in s.threads[t] && ActOk(s.cells, s.now, a);
    RunKeepsInv(s, t, ANY);
    u := StepRun(s, t, ANY);
    assert [Run(t, ANY)][1..] == [];
  }

  /** A run of one step and then more. */
  lemma Chain(s: State, l: Label, v: State, ls: seq<Label>, u: State)
    requires ParentsBelow(s.cells) && Enabled(s, l) && v == Step(s, l) && IsRun(v, ls, u)
    ensures IsRun(s, [l] + ls, u)
  {
    RunCons(s, l, ls, u);
  }

  predicate NoneStopping(cells: seq<Cell>, path: seq<NodeId>) {
    forall k :: 0 <= k < |path| ==> path[k] < |cells| && !cells[path[k]].node.stopping
  }

  /** One fast check. */
  lemma CheckAlone(s: State, t: nat, k: nat, path: seq<NodeId>, mode: Mode, rest: seq<Action>) returns (u: State)
    requires Inv(s) && t < |s.threads| && s.threads[t] == [Check(k, path, mode)] + rest && 1 <= k <= |path|
    ensures Enabled(s, Run(t, ANY)) && u == Step(s, Run(t, ANY)) && IsRun(s, [Run(t, ANY)], u) && Inv(u)
    ensures path[k - 1] < |s.cells| && u.cells == s.cells
    ensures u.threads == s.threads[t := if s.cells[path[k - 1]].node.stopping then rest
                                        else if k > 1 then [Check(k - 1, path, mode)] + rest
                                        else [Inc([], path, mode)] + rest]
  {
    var a := Check(k, path, mode);
    assert a in s.threads[t] && ActOk(s.cells, s.now, a);
    u := One(s, t, a, rest);
    assert s.cells[path[k - 1] := s.cells[path[k - 1]]] == s.cells;
    assert [] + rest == rest;
  }

  /** The fast checks, from the node up to the root. */
  lemma {:induction false} ChecksAlone(s: State, t: nat, k: nat, path: seq<NodeId>, mode: Mode, rest: seq<Action>)
    returns (ls: seq<Label>, u: State)
    requires Inv(s) && t < |s.threads| && s.threads[t] == [Check(k, path, mode)] + rest && 1 <= k <= |path|
    ensures IsRun(s, ls, u) && Inv(u) && u.cells == s.cells
    ensures u.threads == s.threads[t := if NoneStopping(s.cells, path[..k]) then [Inc([], path, mode)] + rest else rest]
    decreases k
  {
    u := CheckAlone(s, t, k, path, mode, rest);
    ls := [Run(t, ANY)];
    if s.cells[path[k - 1]].node.stopping {
      assert path[..k][k - 1] == path[k - 1];
    } else {
      PrefixStopping(s.cells, path, k);
      if k > 1 {
        var v, more := u, [];
        more, u := ChecksAlone(v, t, k - 1, path, mode, rest);
        Chain(s, Run(t, ANY), v, more, u);
        ls := [Run(t, ANY)] + more;
      }
    }
  }

  lemma PrefixStopping(cells: seq<Cell>, path: seq<NodeId>, k: nat)
    requires 1 <= k <= |path| && path[k - 1] < |cells| && !cells[path[k - 1]].node.stopping
    ensures NoneStopping(cells, path[..k]) <==> NoneStopping(cells, path[..k - 1])
  {
    assert path[..k] == path[..k - 1] + [path[k - 1]];
  }

  /** Where the task of a mode runs. */
  ghost predicate Started(s: State, u: State, t: nat, rest: seq<Action>, task: Action)
    requires t < |s.threads|
  {
    if task.Body? && task.mode.Call? then u.threads == s.threads[t := [task] + rest]
    else u.threads == s.threads[t := rest] + [[task]]
  }

  /** A cell with more tasks. */
  function Counts(c: Cell, n: int): Cell {
    c.(node := c.node.(count := c.node.count + n))
  }

  /** One locked section that is not refused. */
  lemma IncAlone(s: State, t: nat, done: seq<NodeId>, todo: seq<NodeId>, mode: Mode, rest: seq<Action>)
    returns (u: State)
    requires Inv(s) && t < |s.threads| && s.threads[t] == [Inc(done, todo, mode)] + rest && todo != []
    requires NoneStopping(s.cells, todo)
    ensures IsRun(s, [Run(t, ANY)], u) && Inv(u) && Enabled(s, Run(t, ANY)) && u == StepRun(s, t, ANY)
    ensures u.cells == s.cells[todo[0] := Counts(s.cells[todo[0]], 1)]
    ensures var path := done + [todo[0]];
      if |todo| > 1 then u.threads == s.threads[t := [Inc(path, todo[1..], mode)] + rest]
      else Started(s, u, t, rest, Body(path, mode))
  {
    var a := Inc(done, todo, mode);
    RunReadyAlone(s, t, a, rest);
    IncEffect(a, s.cells[todo[0]], s.now);
    u := One(s, t, a, rest);
    assert [] + rest == rest;
  }

  /** What has been counted after the first section, and after the others. */
  lemma CountsCompose(cells: seq<Cell>, mid: seq<Cell>, later: seq<Cell>, todo: seq<NodeId>)
    requires todo != [] && todo[0] < |cells| && mid == cells[todo[0] := Counts(cells[todo[0]], 1)]
    requires |later| == |cells|
    requires forall i :: 0 <= i < |cells| ==> later[i] == Counts(mid[i], multiset(todo[1..])[i])
    ensures forall i :: 0 <= i < |cells| ==> later[i] == Counts(cells[i], multiset(todo)[i])
  {
    forall i | 0 <= i < |cells| ensures later[i] == Counts(cells[i], multiset(todo)[i]) { CountFirst(todo, i); }
  }

  lemma SplitPath(done: seq<NodeId>, todo: seq<NodeId>)
    requires todo != []
    ensures (done + [todo[0]]) + todo[1..] == done + todo
    ensures |todo| == 1 ==> done + [todo[0]] == done + todo && todo[1..] == []
  {
  }

  lemma StillRunning(cells: seq<Cell>, mid: seq<Cell>, todo: seq<NodeId>)
    requires todo != [] && NoneStopping(cells, todo) && mid == cells[todo[0] := Counts(cells[todo[0]], 1)]
    ensures NoneStopping(mid, todo[1..])
  {
  }

  /** The locked sections, from the root down to the node. */
  lemma {:induction false} IncsAlone(s: State, t: nat, done: seq<NodeId>, todo: seq<NodeId>, mode: Mode,
                                     rest: seq<Action>)
    returns (ls: seq<Label>, u: State)
    requires Inv(s) && t < |s.threads| && s.threads[t] == [Inc(done, todo, mode)] + rest && todo != []
    requires NoneStopping(s.cells, todo)
    ensures IsRun(s, ls, u) && Inv(u) && Started(s, u, t, rest, Body(done + todo, mode)) && |u.cells| == |s.cells|
    ensures forall i :: 0 <= i < |s.cells| ==> u.cells[i] == Counts(s.cells[i], multiset(todo)[i])
    decreases |todo|
  {
    var v := IncAlone(s, t, done, todo, mode, rest);
    ls, u := [Run(t, ANY)], v;
    SplitPath(done, todo);
    if |todo| > 1 {
      var more;
      StillRunning(s.cells, v.cells, todo);
      more, u := IncsAlone(v, t, done + [todo[0]], todo[1..], mode, rest);
      Chain(s, Run(t, ANY), v, more, u);
      ls := [Run(t, ANY)] + more;
      StartedLater(s, v, u, t, rest, Body(done + todo, mode));
    }
    CountsCompose(s.cells, v.cells, u.cells, todo);
  }

  lemma StartedLater(s: State, v: State, u: State, t: nat, rest: seq<Action>, task: Action)
    requires t < |s.threads| && |v.threads| == |s.threads| && v.threads == s.threads[t := v.threads[t]]
    requires Started(v, u, t, rest, task)
    ensures Started(s, u, t, rest, task)
  {
    assert v.threads[t := rest] == s.threads[t := rest];
    assert v.threads[t := [task] + rest] == s.threads[t := [task] + rest];
  }

  lemma RunReadyAlone(s: State, t: nat, a: Action, rest: seq<Action>)
    requires Inv(s) && t < |s.threads| && s.threads[t] == [a] + rest && a.Inc?
    ensures Shaped(a) && Target(a) < |s.cells| && s.cells[Target(a)].node.count >= 0
    ensures a.done == [] <==> s.cells[Target(a)].node.parent.None?
  {
    assert a in s.threads[t] && ActOk(s.cells, s.now, a);
    assert s.threads[t][0] == a;
    RunReady(s, t, ANY);
  }

  lemma AcquireChecks(s: State, t: nat, n: NodeId, mode: Mode) returns (ls: seq<Label>, u: State)
    requires Inv(s) && Enabled(s, CallApi(t, ApiRun(n, mode)))
    ensures IsRun(Step(s, CallApi(t, ApiRun(n, mode))), ls, u) && Inv(u) && u.cells == s.cells
    ensures var path := PathTo(s.cells, n);
      u.threads == if NoneStopping(s.cells, path) then s.threads[t := [Inc([], path, mode)] + s.threads[t]]
                   else s.threads
  {
    var path, rest := PathTo(s.cells, n), s.threads[t];
    var v := Step(s, CallApi(t, ApiRun(n, mode)));
    StepKeepsInv(s, CallApi(t, ApiRun(n, mode)));
    assert v.threads == s.threads[t := [Check(|path|, path, mode)] + rest];
    ls, u := ChecksAlone(v, t, |path|, path, mode, rest);
    assert path[..|path|] == path && s.threads[t := rest] == s.threads;
  }

  /** Call and Go, with no other thread moving: if neither the node nor any ancestor is
      stopping, the task starts, on the caller's thread for Call and on one of its own for
      Go, and the node and all its ancestors count it; otherwise the call returns and
      nothing has changed. */
  lemma AcquireAlone(s: State, t: nat, n: NodeId, mode: Mode) returns (ls: seq<Label>, u: State)
    requires Reachable(s) && ParentsBelow(s.cells) && Enabled(s, CallApi(t, ApiRun(n, mode)))
    ensures IsRun(Step(s, CallApi(t, ApiRun(n, mode))), ls, u)
    ensures var path := PathTo(s.cells, n);
      if NoneStopping(s.cells, path) then
        && Started(s, u, t, s.threads[t], Body(path, mode)) && |u.cells| == |s.cells|
        && forall i :: 0 <= i < |s.cells| ==>
             u.cells[i] == Counts(s.cells[i], if Above(s.cells, i, n) then 1 else 0)
      else u.cells == s.cells && u.threads == s.threads
  {
    ReachableInv(s);
    var path := PathTo(s.cells, n);
    ls, u := AcquireChecks(s, t, n, mode);
    if NoneStopping(s.cells, path) {
      var w, first, more := u, ls, [];
      more, u := AcquireIncs(s, w, t, n, mode);
      RunJoin(Step(s, CallApi(t, ApiRun(n, mode))), first, w, more, u);
      ls := first + more;
    }
  }

  lemma AcquireIncs(s: State, w: State, t: nat, n: NodeId, mode: Mode) returns (ls: seq<Label>, u: State)
    requires Inv(w) && t < |s.threads| && w.cells == s.cells && ParentsBelow(s.cells) && n < |s.cells|
    requires var path := PathTo(s.cells, n);
      NoneStopping(s.cells, path) && w.threads == s.threads[t := [Inc([], path, mode)] + s.threads[t]]
    ensures IsRun(w, ls, u) && Started(s, u, t, s.threads[t], Body(PathTo(s.cells, n), mode))
    ensures |u.cells| == |s.cells| && forall i :: 0 <= i < |s.cells| ==>
      u.cells[i] == Counts(s.cells[i], if Above(s.cells, i, n) then 1 else 0)
  {
    var path := PathTo(s.cells, n);
    ls, u := IncsAlone(w, t, [], path, mode, s.threads[t]);
    assert [] + path == path;
    StartedLater(s, w, u, t, s.threads[t], Body(path, mode));
    PathCounts(s.cells, n);
  }

  lemma PathCounts(cells: seq<Cell>, n: NodeId)
    requires ParentsBelow(cells) && n < |cells|
    ensures forall i :: multiset(PathTo(cells, n))[i] == if Above(cells, i, n) then 1 else 0
  {
    forall i ensures multiset(PathTo(cells, n))[i] == if Above(cells, i, n) then 1 else 0 { PathOnce(cells, n, i); }
  }

  // Detaching.

  /** A node's cancel function that sees how to detach asks whether the parent is stopping. */
  lemma CancelAlone(s: State, t: nat, n: NodeId, cause: Cause, p: NodeId, rest: seq<Action>) returns (v: State)
    requires Inv(s) && t < |s.threads| && s.threads[t] == [Cancel(n, cause)] + rest
    requires n < |s.cells| && s.cells[n].node.parent == Some(p)
    ensures IsRun(s, [Run(t, Choice([], None, true))], v) && Inv(v) && v.cells == s.cells
    ensures v.threads == s.threads[t := [DetachCheck(p, n)] + ([CancelCtx(n, cause)] + rest)]
  {
    var a, ch := Cancel(n, cause), Choice([], None, true);
    assert s.threads[t][0] == a && s.threads[t][1..] == rest;
    RunKeepsInv(s, t, ch);
    v := StepRun(s, t, ch);
    assert s.cells[n := s.cells[n]] == s.cells;
    assert [DetachCheck(p, n)] + [CancelCtx(n, cause)] + rest == [DetachCheck(p, n)] + ([CancelCtx(n, cause)] + rest);
    assert [Run(t, ch)][1..] == [];
  }

  lemma DetachLocked(s: State, t: nat, p: NodeId, n: NodeId, rest: seq<Action>) returns (u: State)
    requires Inv(s) && t < |s.threads| && s.threads[t] == [Detach(p, n)] + rest
    ensures IsRun(s, [Run(t, ANY)], u) && p < |u.cells| && n !in u.cells[p].node.hooks
    ensures u.threads == s.threads[t := rest]
  {
    var detach := Detach(p, n);
    assert detach in s.threads[t] && ActOk(s.cells, s.now, detach);
    u := One(s, t, detach, rest);
    assert [] + rest == rest;
  }

  lemma DetachAsked(s: State, t: nat, p: NodeId, n: NodeId, rest: seq<Action>) returns (u: State)
    requires Inv(s) && t < |s.threads| && s.threads[t] == [DetachCheck(p, n)] + rest
    ensures Enabled(s, Run(t, ANY)) && u == Step(s, Run(t, ANY)) && Inv(u) && IsRun(s, [Run(t, ANY)], u)
    ensures p < |s.cells| && u.cells == s.cells
    ensures u.threads == s.threads[t := if s.cells[p].node.stopping then rest else [Detach(p, n)] + rest]
  {
    var check := DetachCheck(p, n);
    assert check in s.threads[t] && ActOk(s.cells, s.now, check);
    u := One(s, t, check, rest);
    assert [] + rest == rest && s.cells[p := s.cells[p]] == s.cells;
  }

  lemma DetachAlone(s: State, t: nat, p: NodeId, n: NodeId, rest: seq<Action>) returns (ls: seq<Label>, u: State)
    requires Inv(s) && t < |s.threads| && s.threads[t] == [DetachCheck(p, n)] + rest
    ensures IsRun(s, ls, u) && p < |u.cells| && n !in u.cells[p].node.hooks
    ensures u.threads == s.threads[t := rest]
  {
    var w := DetachAsked(s, t, p, n, rest);
    ls, u := [Run(t, ANY)], w;
    assert CellOk(w.cells[p]);
    if !s.cells[p].node.stopping {
      u := DetachLocked(w, t, p, n, rest);
      Chain(s, Run(t, ANY), w, [Run(t, ANY)], u);
      ls := [Run(t, ANY)] + [Run(t, ANY)];
    }
  }

  /** It takes the node off its parent's hooks before it cancels the context, with no other
      thread moving. */
  lemma CancelDetaches(s: State, t: nat, n: NodeId, cause: Cause, p: NodeId, rest: seq<Action>)
    returns (ls: seq<Label>, u: State)
    requires Inv(s) && t < |s.threads| && s.threads[t] == [Cancel(n, cause)] + rest
    requires n < |s.cells| && s.cells[n].node.parent == Some(p)
    ensures IsRun(s, ls, u) && p < |u.cells| && n !in u.cells[p].node.hooks
    ensures u.threads == s.threads[t := [CancelCtx(n, cause)] + rest]
  {
    var v := CancelAlone(s, t, n, cause, p, rest);
    var first := [Run(t, Choice([], None, true))];
    ls, u := DetachAlone(v, t, p, n, [CancelCtx(n, cause)] + rest);
    RunJoin(s, first, v, ls, u);
    ls := first + ls;
  }
}
