/**
  A concrete run on which AddDeferred accepts a callback that nothing will ever run:
  a root is stopped without grace while a task is running, a callback is deferred, and
  the task ends.
 */
module StopTreeWitness {
  import opened Options
  import opened StateNode
  import opened StopTree
  import opened StopTreeGauges
  import opened StopTreeRuns
  import opened StopTreeTheorems

  const PLAIN := Choice([], None, false)

  /** One root and two threads. */
  ghost predicate Small(s: State) {
    Reachable(s) && ParentsBelow(s.cells) && |s.cells| == 1 && |s.threads| == 2
  }

  lemma Go(s: State, l: Label) returns (u: State)
    requires Reachable(s) && ParentsBelow(s.cells) && Enabled(s, l)
    ensures u == Step(s, l) && Reachable(u) && ParentsBelow(u.cells)
  {
    u := Step(s, l);
    ReachableStep(s, l);
    ReachableInv(u);
  }

  /** Thread t performs its only action. */
  lemma Perform(s: State, t: nat, a: Action) returns (u: State)
    requires Small(s) && t < 2 && s.threads[t] == [a] && Shaped(a) && Target(a) == 0 && !a.Hooks?
    requires Exec(a, s.cells[0], s.now, t, PLAIN).spawn == []
    ensures Small(u) && u.threads[1 - t] == s.threads[1 - t]
    ensures u.threads[t] == Exec(a, s.cells[0], s.now, t, PLAIN).push
    ensures u.cells[0] == Exec(a, s.cells[0], s.now, t, PLAIN).cell
  {
    u := Go(s, Run(t, PLAIN));
    assert s.threads[t][1..] == [];
  }

  /** Thread t calls into the library. */
  lemma Ask(s: State, t: nat, api: Api) returns (u: State)
    requires Small(s) && t < 2 && s.threads[t] == [] && !api.ApiNew? && api.n == 0
    ensures Small(u) && u.threads[1 - t] == s.threads[1 - t] && u.cells == s.cells
    ensures u.threads[t] == ApiActions(s, api)
  {
    u := Go(s, CallApi(t, api));
    assert ApiActions(s, api) + [] == ApiActions(s, api);
  }

  lemma Begin() returns (s: State)
    ensures Small(s) && s.threads == [[], []] && s.cells[0] == FreshCell(None, 0)
  {
    s := Init(0);
    assert IsRun(Init(0), [], s);
    s := Go(s, NewThread);
    s := Go(s, NewThread);
    assert s.threads == [[], []];
    s := Go(s, CallApi(0, ApiNew(None, 0)));
    assert s.threads[0] == [] && s.threads == [[], []];
  }

  /** A root with one running task; thread 1 is idle. */
  lemma RunningTask() returns (s: State)
    ensures Small(s) && s.threads[0] == [Body([0], Call)] && s.threads[1] == []
    ensures s.cells[0] == FreshCell(None, 0).(node := Fresh(None, 0).(count := 1))
  {
    s := Begin();
    assert PathTo(s.cells, 0) == [0];
    s := Ask(s, 0, ApiRun(0, Call));
    s := Perform(s, 0, Check(1, [0], Call));
    s := Perform(s, 0, Inc([], [0], Call));
  }

  /** A stop without grace of a node that has tasks, no hooks and no callbacks. */
  lemma RushedStop(c: Cell, now: int, t: nat)
    requires var n := c.node; n.armed && n.count > 0 && n.hooks == map[] && n.deferred == [] && n.timer.None?
    ensures var e := Exec(Stop(0, 0), c, now, t, PLAIN);
      && e.push == [Cancel(0, ErrGracePeriodExpired)] && e.spawn == []
      && e.cell.node == c.node.(armed := false, stopping := true)
      && e.cell.hist.accepted == c.hist.accepted && e.cell.hist.late == c.hist.late
      && e.cell.hist.cause == Some(ErrGracePeriodExpired)
  {
    var out := SoftStop(c.node, 0, now);
    assert out.jobs == [RunCancel(ErrGracePeriodExpired)];
    BackwardsOne(0, out.jobs[0]);
  }

  /** Its cancel has been taken while a task is running, and nothing was deferred. */
  ghost predicate Rushed(c: Cell) {
    var n, h := c.node, c.hist;
    && n.stopping && !n.armed && n.count == 1 && n.stopOnIdle.None? && n.deferred == []
    && h.accepted == [] && h.late == [] && h.cause == Some(ErrGracePeriodExpired)
  }

  /** Stopping it without grace takes the cancel while the task is running. */
  lemma StopTaken() returns (s: State)
    ensures Small(s) && s.threads[0] == [Body([0], Call)] && Rushed(s.cells[0])
    ensures s.threads[1] == [Cancel(0, ErrGracePeriodExpired)]
  {
    s := RunningTask();
    s := Ask(s, 1, ApiStop(0, 0));
    RushedStop(s.cells[0], s.now, 1);
    s := Perform(s, 1, Stop(0, 0));
  }

  lemma StoppedWhileRunning() returns (s: State)
    ensures Small(s) && s.threads[0] == [Body([0], Call)] && s.threads[1] == []
    ensures Rushed(s.cells[0])
  {
    s := StopTaken();
    s := Perform(s, 1, Cancel(0, ErrGracePeriodExpired));
    s := Perform(s, 1, CancelCtx(0, ErrGracePeriodExpired));
  }

  /** The callback was accepted, all threads are done, and on every continuation the
      callback stays unrun. */
  lemma AcceptedButNeverRun(cb: Callback) returns (s: State)
    ensures Reachable(s) && |s.cells| == 1
    ensures forall t :: 0 <= t < |s.threads| ==> s.threads[t] == []
    ensures s.cells[0].node.deferred == [cb] && s.cells[0].hist.late == [cb]
    ensures forall ls, u :: IsRun(s, ls, u) ==> |u.cells| > 0 && Ran(cb) !in u.cells[0].hist.trace
  {
    s := StoppedWhileRunning();
    s := Ask(s, 1, ApiDefer(0, cb));
    s := Perform(s, 1, Defer(0, cb));
    s := Perform(s, 0, Body([0], Call));
    s := Perform(s, 0, Dec([0]));
    forall ls, u | IsRun(s, ls, u) ensures |u.cells| > 0 && Ran(cb) !in u.cells[0].hist.trace {
      LateNeverRuns(s, ls, u, 0, cb);
    }
  }

  // The order of hooks and cancel.

  /** A root with a hooked child, and one thread. */
  ghost predicate Pair(s: State) {
    && Reachable(s) && ParentsBelow(s.cells) && |s.cells| == 2 && |s.threads| == 1
    && s.cells[1] == FreshCell(Some(0), s.cells[1].node.grace)
  }

  lemma OneRoot() returns (s: State)
    ensures Reachable(s) && ParentsBelow(s.cells) && s.cells == [FreshCell(None, 0)] && s.threads == [[]]
  {
    s := Init(0);
    assert IsRun(Init(0), [], s);
    s := Go(s, NewThread);
    s := Go(s, CallApi(0, ApiNew(None, 0)));
    assert s.threads[0] == [];
  }

  lemma Attached(grace: int) returns (s: State)
    ensures Pair(s) && s.threads[0] == []
    ensures s.cells[0] == FreshCell(None, 0).(node := Fresh(None, 0).(hooks := map[1 := grace]))
  {
    s := OneRoot();
    s := Go(s, CallApi(0, ApiNew(Some(0), grace)));
    assert s.threads[0] == [Attach(0, 1, grace)];
    s := Go(s, Run(0, PLAIN));
  }

  /** The only thread performs the first of its actions, which is on the root. */
  lemma Next(s: State, a: Action, rest: seq<Action>) returns (u: State)
    requires Pair(s) && s.threads[0] == [a] + rest && Shaped(a) && Target(a) == 0 && !a.Hooks?
    requires Exec(a, s.cells[0], s.now, 0, PLAIN).spawn == []
    ensures Pair(u) && u.threads[0] == Exec(a, s.cells[0], s.now, 0, PLAIN).push + rest
    ensures u.cells[0] == Exec(a, s.cells[0], s.now, 0, PLAIN).cell
  {
    assert s.threads[0][0] == a && s.threads[0][1..] == rest;
    u := Go(s, Run(0, PLAIN));
  }

  /** Stopping a root with a hooked child and one deferred callback. */
  lemma HookedStop(c: Cell, cb: Callback, hooks: map<NodeId, int>, now: int)
    requires c.node == Fresh(None, 0).(hooks := hooks, deferred := [cb]) && hooks != map[]
    ensures var e := Exec(Stop(0, 1), c, now, 0, PLAIN);
      && e.push == [Due(0, cb)] + [Cancel(0, ErrStopped), Hooks(0, hooks)] && e.spawn == []
      && e.cell.hist.trace == c.hist.trace
  {
    var n := c.node;
    SoftStopDisarms(n, 1, now);
    var k :| k in hooks;
    assert hooks.Keys != {};
    WorkOrder(0, hooks, Some(ErrStopped), [cb]);
    assert Dues(0, [cb]) == Dues(0, [cb][1..]) + [Due(0, cb)] == [Due(0, cb)];
  }

  /** The root has been stopped: the callback is due, then the cancel, then the hooks. */
  lemma Ordered(cb: Callback, hooks: map<NodeId, int>) returns (s: State)
    requires hooks.Keys == {1}
    ensures Pair(s) && s.cells[0].hist.trace == []
    ensures s.threads[0] == [Due(0, cb)] + [Cancel(0, ErrStopped), Hooks(0, hooks)]
  {
    s := Attached(hooks[1]);
    assert map[1 := hooks[1]] == hooks;
    s := Go(s, CallApi(0, ApiDefer(0, cb)));
    s := Next(s, Defer(0, cb), []);
    assert 1 in hooks;
    s := Go(s, CallApi(0, ApiStop(0, 1)));
    HookedStop(s.cells[0], cb, hooks, s.now);
    s := Next(s, Stop(0, 1), []);
  }

  lemma CallbackDone(cb: Callback, hooks: map<NodeId, int>) returns (s: State)
    requires hooks.Keys == {1}
    ensures Pair(s) && s.cells[0].hist.trace == [Ran(cb)]
    ensures s.threads[0] == [Cancel(0, ErrStopped)] + [Hooks(0, hooks)]
  {
    s := Ordered(cb, hooks);
    var rest := [Cancel(0, ErrStopped), Hooks(0, hooks)];
    s := Next(s, Due(0, cb), rest);
    s := Next(s, Running(0, cb), rest);
    s := Next(s, Returned(0, cb, None), rest);
  }

  /** A reachable state in which the parent's callback has run and its cancel is complete,
      while the hook that stops its child is still to run and the child is not stopping. */
  lemma CancelBeforeChild(cb: Callback, grace: int) returns (s: State)
    ensures Pair(s) && !s.cells[1].node.stopping
    ensures s.cells[0].hist.trace == [Ran(cb), Cancelled(ErrStopped)]
    ensures s.threads[0] == [Hooks(0, map[1 := grace])]
  {
    var hooks := map[1 := grace];
    s := CallbackDone(cb, hooks);
    s := Next(s, Cancel(0, ErrStopped), [Hooks(0, hooks)]);
    s := Next(s, CancelCtx(0, ErrStopped), [Hooks(0, hooks)]);
  }
}
