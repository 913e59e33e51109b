/**
  What the stop/count protocol guarantees in every reachable state and on every run.
 */
module StopTreeTheorems {
  import opened Options
  import opened StateNode
  import opened StopTree
  import opened StopTreeGauges
  import opened StopTreeLocal
  import opened StopTreeConclusion
  import opened StopTreePaths
  import opened StopTreeInvariant
  import opened StopTreeRuns

  ghost predicate Somewhere(s: State, a: Action) {
    exists t :: 0 <= t < |s.threads| && a in s.threads[t]
  }

  lemma {:induction false} ProgZero(g: Gauge, prog: seq<Action>)
    requires forall a :: a in prog ==> Reading(g, a) == 0
    ensures ReadProg(g, prog) == 0
  {
    if prog != [] { ProgZero(g, prog[1..]); }
  }

  lemma {:induction false} AllZero(g: Gauge, threads: seq<seq<Action>>)
    requires forall t, a :: 0 <= t < |threads| && a in threads[t] ==> Reading(g, a) == 0
    ensures ReadAll(g, threads) == 0
  {
    if threads != [] {
      var last := |threads| - 1;
      ProgZero(g, threads[last]);
      AllZero(g, threads[..last]);
    }
  }

  lemma PresentReads(g: Gauge, s: State, a: Action)
    requires Somewhere(s, a)
    ensures Reading(g, a) <= ReadAll(g, s.threads)
  {
    var t :| 0 <= t < |s.threads| && a in s.threads[t];
    ReadMember(g, s.threads[t], a);
    ReadThread(g, s.threads, t);
  }

  // Ticket conservation.

  /** Every increment is held by a running task: no acquire, release or handler is under way. */
  ghost predicate Settled(s: State) {
    forall a :: Somewhere(s, a) ==> !a.Inc? && !a.Dec? && !a.Handle?
  }

  lemma {:induction false} LiveVersusHolds(cells: seq<Cell>, now: int, i: NodeId, prog: seq<Action>)
    requires ParentsBelow(cells) && ProgOk(cells, now, prog)
    ensures ReadProg(Live(i), prog) <= ReadProg(Holds(i), prog)
    ensures (forall a :: a in prog ==> !a.Inc? && !a.Dec? && !a.Handle?) ==>
              ReadProg(Live(i), prog) == ReadProg(Holds(i), prog)
  {
    if prog != [] {
      var a := prog[0];
      assert a in prog && ActOk(cells, now, a);
      if a.Body? { PathOnce(cells, a.path[|a.path| - 1], i); }
      LiveVersusHolds(cells, now, i, prog[1..]);
    }
  }

  lemma {:induction false} AllLiveVersusHolds(cells: seq<Cell>, now: int, i: NodeId, threads: seq<seq<Action>>)
    requires ParentsBelow(cells) && forall t :: 0 <= t < |threads| ==> ProgOk(cells, now, threads[t])
    ensures ReadAll(Live(i), threads) <= ReadAll(Holds(i), threads)
    ensures (forall t, a :: 0 <= t < |threads| && a in threads[t] ==> !a.Inc? && !a.Dec? && !a.Handle?) ==>
              ReadAll(Live(i), threads) == ReadAll(Holds(i), threads)
  {
    if threads != [] {
      var last := |threads| - 1;
      LiveVersusHolds(cells, now, i, threads[last]);
      AllLiveVersusHolds(cells, now, i, threads[..last]);
    }
  }

  /** In every interleaving a node's count is the number of increments of it not yet
      undone, it is never below the number of tasks running at or under the node, and
      the two are equal once the tree has settled.  Nothing is ever over-released. */
  lemma TicketConservation(s: State, i: NodeId)
    requires Reachable(s) && i < |s.cells|
    ensures !s.panicked
    ensures s.cells[i].node.count == ReadAll(Holds(i), s.threads)
    ensures ReadAll(Live(i), s.threads) <= s.cells[i].node.count
    ensures Settled(s) ==> s.cells[i].node.count == ReadAll(Live(i), s.threads)
  {
    ReachableInv(s);
    AllLiveVersusHolds(s.cells, s.now, i, s.threads);
    if Settled(s) {
      forall t, a | 0 <= t < |s.threads| && a in s.threads[t] ensures !a.Inc? && !a.Dec? && !a.Handle? {
        assert Somewhere(s, a);
      }
    }
  }

  // Clean cancellation.

  /** The cancel of node i was taken with ErrStopped. */
  ghost predicate CleanlyStopped(s: State, i: NodeId) {
    i < |s.cells| && s.cells[i].hist.cause == Some(ErrStopped)
  }

  /** After the hard stop its cause and the accepted callbacks are fixed. */
  lemma StepFixes(s: State, l: Label, i: NodeId)
    requires Inv(s) && Enabled(s, l) && i < |s.cells| && !s.cells[i].node.armed
    ensures var h, k := s.cells[i].hist, Step(s, l).cells[i].hist;
      && !Step(s, l).cells[i].node.armed
      && k.cause == h.cause && k.accepted == h.accepted
  {
    if l.Run? {
      RunReady(s, l.t, l.choice);
      var a := s.threads[l.t][0];
      ExecAdvances(a, s.cells[Target(a)], s.now, l.t, l.choice);
      ExecGrows(a, s.cells[Target(a)], s.now, l.t, l.choice);
    }
  }

  lemma {:induction false} RunFixes(s: State, ls: seq<Label>, u: State, i: NodeId)
    requires Inv(s) && IsRun(s, ls, u) && i < |s.cells| && !s.cells[i].node.armed
    ensures Inv(u) && i < |u.cells| && !u.cells[i].node.armed
    ensures u.cells[i].hist.cause == s.cells[i].hist.cause
    ensures u.cells[i].hist.accepted == s.cells[i].hist.accepted
    decreases |ls|
  {
    if ls != [] {
      StepKeepsInv(s, ls[0]);
      StepFixes(s, ls[0], i);
      RunFixes(Step(s, ls[0]), ls[1..], u, i);
    }
  }

  lemma CleanNow(s: State, i: NodeId, a: Action)
    requires Inv(s) && CleanlyStopped(s, i) && Somewhere(s, a)
    ensures s.cells[i].node.count == 0
    ensures ActOk(s.cells, s.now, a)
    ensures a.Body? || a.Handle? ==> !Above(s.cells, i, a.path[|a.path| - 1])
    ensures a.Inc? ==> i !in a.done
  {
    var t :| 0 <= t < |s.threads| && a in s.threads[t];
    assert ProgOk(s.cells, s.now, s.threads[t]);
    assert CellOk(s.cells[i]);
    PresentReads(Holds(i), s, a);
    assert Reading(Holds(i), a) == 0;
    if a.Body? || a.Handle? {
      Uncounted(a.path, i);
    } else if a.Inc? {
      Uncounted(a.done, i);
    }
  }

  lemma Uncounted(path: seq<NodeId>, i: NodeId)
    requires multiset(path)[i] == 0
    ensures i !in path
  {
    assert i !in multiset(path);
  }

  /** Once a node was cancelled cleanly, then at that moment and at every later moment
      of every run no task of the node or of any descendant is running, although
      acquires may have been caught between the node's section and a descendant's. */
  lemma CleanCancelSafety(s: State, ls: seq<Label>, u: State, i: NodeId, a: Action)
    requires Reachable(s) && CleanlyStopped(s, i) && IsRun(s, ls, u)
    requires Somewhere(u, a) && (a.Body? || a.Handle?)
    ensures i < |u.cells| && u.cells[i].node.count == 0 && ParentsBelow(u.cells)
    ensures ActOk(u.cells, u.now, a) && !Above(u.cells, i, a.path[|a.path| - 1])
  {
    ReachableInv(s);
    assert CellOk(s.cells[i]);
    RunFixes(s, ls, u, i);
    CleanNow(u, i, a);
  }

  // The lifecycle and the recorded cause.

  /** Every node satisfies the lifecycle invariant whenever its lock is free, and a cause
      is recorded exactly when the cancel has been taken. */
  lemma LifecycleAlways(s: State, i: NodeId)
    requires Reachable(s) && i < |s.cells|
    ensures Lifecycle(s.cells[i].node)
    ensures s.cells[i].node.armed <==> s.cells[i].hist.cause.None?
  {
    ReachableInv(s);
    assert CellOk(s.cells[i]);
  }

  /** A grace period expired exactly when, at the hard stop, some increment of the node
      was still held. */
  lemma CauseMeansOutstanding(s: State, l: Label, i: NodeId)
    requires Reachable(s) && ParentsBelow(s.cells) && Enabled(s, l) && i < |s.cells|
    requires s.cells[i].node.armed && !Step(s, l).cells[i].node.armed
    ensures var u := Step(s, l);
      u.cells[i].hist.cause == Some(ErrGracePeriodExpired) <==> ReadAll(Holds(i), u.threads) > 0
  {
    ReachableInv(s);
    StepKeepsInv(s, l);
    var u := Step(s, l);
    assert CellOk(u.cells[i]);
    var a := s.threads[l.t][0];
    RunReady(s, l.t, l.choice);
    ExecAdvances(a, s.cells[Target(a)], s.now, l.t, l.choice);
  }

  // Deferred callbacks.

  lemma {:induction false} ScriptShape(cbs: seq<Callback>, k: nat)
    requires k < |cbs|
    ensures |RanBackwards(cbs)| == |cbs|
    ensures RanBackwards(cbs)[k] == Ran(cbs[|cbs| - 1 - k])
  {
    if |cbs| > 1 { ScriptShape(cbs[1..], if k < |cbs| - 1 then k else 0); }
  }

  /** A script that has reached its cancellation is complete. */
  lemma ScriptEnd(trace: seq<Item>, rest: seq<Item>, accepted: seq<Callback>, cause: Cause)
    requires trace + rest == Script(accepted, cause)
    requires exists c :: Cancelled(c) in trace
    ensures rest == [] && trace == Script(accepted, cause)
  {
    var c :| Cancelled(c) in trace;
    var k :| 0 <= k < |trace| && trace[k] == Cancelled(c);
    assert (trace + rest)[k] == Cancelled(c);
    if k < |accepted| { ScriptShape(accepted, k); }
    if accepted != [] { ScriptShape(accepted, 0); }
  }

  /** The callbacks accepted before the hard stop run in reverse order of acceptance,
      each at most once, after Stopping is closed and before the node's own cancel;
      by the time of the cancel all of them have run, and the cancel runs once. */
  lemma DeferredInOrder(s: State, i: NodeId)
    requires Reachable(s) && i < |s.cells|
    ensures var c := s.cells[i];
      && (c.hist.trace != [] ==> c.node.stopping && c.hist.cause.Some?)
      && (c.hist.cause.Some? ==> c.hist.trace <= Script(c.hist.accepted, c.hist.cause.value))
      && ((exists x :: Cancelled(x) in c.hist.trace) ==>
            c.hist.cause.Some? && c.hist.trace == Script(c.hist.accepted, c.hist.cause.value))
  {
    ReachableInv(s);
    var c := s.cells[i];
    assert CellOk(c);
    if !c.node.armed {
      var p := Pending(i, s.threads[c.hist.runner]);
      assert PendingOk(s, i, c.hist.runner);
      assert c.hist.trace + p == Script(c.hist.accepted, c.hist.cause.value);
      if exists x :: Cancelled(x) in c.hist.trace {
        ScriptEnd(c.hist.trace, p, c.hist.accepted, c.hist.cause.value);
      }
    }
  }

  /** When no thread has work left, an accepted callback has run exactly once. */
  lemma AcceptedRunsOnce(s: State, i: NodeId)
    requires Reachable(s) && i < |s.cells| && !s.cells[i].node.armed
    requires forall t :: 0 <= t < |s.threads| ==> s.threads[t] == []
    ensures s.cells[i].hist.cause.Some?
    ensures s.cells[i].hist.trace == Script(s.cells[i].hist.accepted, s.cells[i].hist.cause.value)
  {
    ReachableInv(s);
    var c := s.cells[i];
    assert PendingOk(s, i, c.hist.runner);
    assert c.hist.trace + [] == c.hist.trace;
  }

  lemma {:induction false} RanWasAccepted(cbs: seq<Callback>, cb: Callback)
    requires Ran(cb) in RanBackwards(cbs)
    ensures cb in cbs
  {
    if Ran(cb) in RanBackwards(cbs[1..]) { RanWasAccepted(cbs[1..], cb); }
  }

  /** A callback that was not accepted before the hard stop never runs as a deferred
      callback, on any continuation, although AddDeferred may have reported true. */
  lemma LateNeverRuns(s: State, ls: seq<Label>, u: State, i: NodeId, cb: Callback)
    requires Reachable(s) && IsRun(s, ls, u) && i < |s.cells| && !s.cells[i].node.armed
    requires cb !in s.cells[i].hist.accepted
    ensures i < |u.cells| && Ran(cb) !in u.cells[i].hist.trace
  {
    ReachableInv(s);
    RunFixes(s, ls, u, i);
    var c := u.cells[i];
    assert CellOk(c);
    assert PendingOk(u, i, c.hist.runner);
    if Ran(cb) in c.hist.trace {
      assert Ran(cb) in c.hist.trace + Pending(i, u.threads[c.hist.runner]);
      RanWasAccepted(c.hist.accepted, cb);
    }
  }

  lemma {:induction false} AcceptedRan(cbs: seq<Callback>, cb: Callback)
    requires cb in cbs
    ensures Ran(cb) in RanBackwards(cbs)
  {
    if cb != cbs[0] { AcceptedRan(cbs[1..], cb); }
  }

  lemma ExecAccepts(a: Action, c: Cell, now: int, t: nat, ch: Choice)
    requires Ready(a, c, now, ch)
    ensures c.hist.accepted <= Exec(a, c, now, t, ch).cell.hist.accepted
  {
    if Stopper(a) {
      StopperOutcome(a, c, now, t, ch);
    } else if a.Inc? {
      IncEffect(a, c, now);
    }
  }

  lemma StepAccepts(s: State, l: Label, i: NodeId)
    requires Inv(s) && Enabled(s, l) && i < |s.cells|
    ensures s.cells[i].hist.accepted <= Step(s, l).cells[i].hist.accepted
  {
    if l.Run? {
      RunReady(s, l.t, l.choice);
      var a := s.threads[l.t][0];
      ExecAccepts(a, s.cells[Target(a)], s.now, l.t, l.choice);
    }
  }

  lemma {:induction false} RunAccepts(s: State, ls: seq<Label>, u: State, i: NodeId)
    requires Inv(s) && IsRun(s, ls, u) && i < |s.cells|
    ensures Inv(u) && i < |u.cells| && s.cells[i].hist.accepted <= u.cells[i].hist.accepted
    decreases |ls|
  {
    if ls != [] {
      StepKeepsInv(s, ls[0]);
      StepAccepts(s, ls[0], i);
      RunAccepts(Step(s, ls[0]), ls[1..], u, i);
    }
  }

  /** AddDeferred reports true.  On every later run on which the node's own cancel has
      completed, the callback has run if and only if the cancel was not yet taken when
      AddDeferred was called.  (The callback is one that was not accepted before.) */
  lemma DeferredRunsIffArmed(s: State, t: nat, ch: Choice, ls: seq<Label>, u: State)
    requires Reachable(s) && ParentsBelow(s.cells) && Enabled(s, Run(t, ch)) && s.threads[t][0].Defer?
    requires var a := s.threads[t][0];
      !DefersNothing(s.cells[a.n].node) && a.cb !in s.cells[a.n].hist.accepted
    requires IsRun(Step(s, Run(t, ch)), ls, u)
    requires var i := s.threads[t][0].n;
      i < |u.cells| && exists x :: Cancelled(x) in u.cells[i].hist.trace
    ensures var a := s.threads[t][0];
      Ran(a.cb) in u.cells[a.n].hist.trace <==> s.cells[a.n].node.armed
  {
    var a := s.threads[t][0];
    ReachableInv(s);
    ReachableStep(s, Run(t, ch));
    var v := Step(s, Run(t, ch));
    if s.cells[a.n].node.armed {
      assert a.cb in v.cells[a.n].hist.accepted;
      StepKeepsInv(s, Run(t, ch));
      RunAccepts(v, ls, u, a.n);
      ReachableRun(v, ls, u);
      DeferredInOrder(u, a.n);
      AcceptedRan(u.cells[a.n].hist.accepted, a.cb);
    } else {
      LateNeverRuns(v, ls, u, a.n, a.cb);
    }
  }

  lemma RunCons(s: State, l: Label, ls: seq<Label>, u: State)
    requires ParentsBelow(s.cells) && Enabled(s, l) && IsRun(Step(s, l), ls, u)
    ensures IsRun(s, [l] + ls, u)
  {
    assert ([l] + ls)[0] == l && ([l] + ls)[1..] == ls;
  }

  lemma {:induction false} RunJoin(s: State, ls: seq<Label>, v: State, ms: seq<Label>, u: State)
    requires IsRun(s, ls, v) && IsRun(v, ms, u)
    ensures IsRun(s, ls + ms, u)
    decreases |ls|
  {
    if ls == [] {
      assert [] + ms == ms;
    } else {
      RunJoin(Step(s, ls[0]), ls[1..], v, ms, u);
      RunCons(s, ls[0], ls[1..] + ms, u);
      LabelsJoin(ls, ms);
    }
  }

  lemma LabelsJoin(ls: seq<Label>, ms: seq<Label>)
    requires ls != []
    ensures [ls[0]] + (ls[1..] + ms) == ls + ms
  {
  }

  lemma ReachableRun(s: State, ls: seq<Label>, u: State)
    requires Reachable(s) && IsRun(s, ls, u)
    ensures Reachable(u)
  {
    var now, prior :| IsRun(Init(now), prior, s);
    RunJoin(Init(now), prior, s, ls, u);
  }

  lemma ReachableStep(s: State, l: Label)
    requires Reachable(s) && ParentsBelow(s.cells) && Enabled(s, l)
    ensures Reachable(Step(s, l))
  {
    assert IsRun(Step(s, l), [], Step(s, l));
    assert [l][1..] == [];
    ReachableRun(s, [l], Step(s, l));
  }

  // Stop propagation.

  /** No thread has a stop left to deliver. */
  ghost predicate StopsDelivered(s: State) {
    forall a :: Somewhere(s, a) ==> !a.Stop? && !a.Hooks? && !a.Attach?
  }

  /** A stopping node's child is stopping, or work that will stop it is pending. */
  lemma ChildrenReached(s: State, k: NodeId)
    requires Reachable(s) && k < |s.cells| && s.cells[k].node.parent.Some?
    requires s.cells[k].node.parent.value < |s.cells| && s.cells[s.cells[k].node.parent.value].node.stopping
    ensures s.cells[k].node.stopping || ReadAll(StopDue(k), s.threads) > 0
  {
    ReachableInv(s);
    assert Reached(s, k) && CellOk(s.cells[s.cells[k].node.parent.value]);
  }

  /** When all stops are delivered, everything below a stopping node is stopping. */
  lemma {:induction false} StopPropagation(s: State, n: NodeId, m: NodeId)
    requires Reachable(s) && StopsDelivered(s) && ParentsBelow(s.cells)
    requires n < |s.cells| && m < |s.cells| && s.cells[n].node.stopping && Above(s.cells, n, m)
    ensures s.cells[m].node.stopping
    decreases m
  {
    if n != m {
      var p := s.cells[m].node.parent.value;
      StopPropagation(s, n, p);
      ChildrenReached(s, m);
      if !s.cells[m].node.stopping {
        forall t, a | 0 <= t < |s.threads| && a in s.threads[t] ensures Reading(StopDue(m), a) == 0 {
          assert Somewhere(s, a);
        }
        AllZero(StopDue(m), s.threads);
      }
    }
  }

  // No lost errors.

  datatype Reported = Joined(e: Error) | GraceExpired

  /** What Wait joins once the context is done: the recorded errors, and the expired
      grace period if that was the cause. */
  function WaitErrors(c: Cell): seq<Reported> {
    JoinedAll(c.node.errs)
    + (if c.hist.cause == Some(ErrGracePeriodExpired) then [GraceExpired] else [])
  }

  /** Wait reports exactly the recorded errors, as often as they are recorded and whatever
      the cause is, and an expired grace period exactly if that is the cause. */
  lemma WaitReports(s: State, i: NodeId, x: Error)
    requires Reachable(s) && i < |s.cells|
    ensures var c := s.cells[i];
      && multiset(WaitErrors(c))[Joined(x)] == multiset(c.node.errs)[x]
      && (GraceExpired in WaitErrors(c) <==> c.hist.cause == Some(ErrGracePeriodExpired))
  {
    var c := s.cells[i];
    JoinedCount(c.node.errs, x);
    var joined := JoinedAll(c.node.errs);
    assert GraceExpired !in joined;
  }

  lemma {:induction false} JoinedCount(errs: seq<Error>, x: Error)
    ensures multiset(JoinedAll(errs))[Joined(x)] == multiset(errs)[x]
  {
    if errs != [] {
      var last := |errs| - 1;
      JoinedCount(errs[..last], x);
      assert errs == errs[..last] + [errs[last]];
      assert JoinedAll(errs) == JoinedAll(errs[..last]) + [Joined(errs[last])];
    }
  }

  function JoinedAll(errs: seq<Error>): seq<Reported> {
    seq(|errs|, i requires 0 <= i < |errs| => Joined(errs[i]))
  }

  /** A root's own cancel function has completed.  (A root built on a plain context is
      also done, earlier, if that context is cancelled.) */
  ghost predicate RootDone(c: Cell) {
    c.node.parent.None? && exists x :: Cancelled(x) in c.hist.trace
  }

  /** When a root is done and was stopped cleanly, Wait reports every error that its
      error handlers received and every error of a callback deferred before the stop,
      at least as often as it was received, and no expired grace period. */
  lemma NoLostErrors(s: State, i: NodeId, x: Error)
    requires Reachable(s) && CleanlyStopped(s, i) && RootDone(s.cells[i])
    ensures multiset(s.cells[i].hist.received)[x] <= multiset(s.cells[i].node.errs)[x]
    ensures x in s.cells[i].hist.received ==> Joined(x) in WaitErrors(s.cells[i])
    ensures GraceExpired !in WaitErrors(s.cells[i])
  {
    ReachableInv(s);
    var c := s.cells[i];
    assert CellOk(c) && Recorded(c, x, ReadAll(Owes(i, x), s.threads));
    forall t, a | 0 <= t < |s.threads| && a in s.threads[t] ensures Reading(Owes(i, x), a) == 0 {
      assert Somewhere(s, a);
      CleanNow(s, i, a);
      if a.Returned? && a.n == i { NothingPending(s, i, t, a); }
    }
    AllZero(Owes(i, x), s.threads);
    if x in c.hist.received {
      assert x in multiset(c.hist.received);
      assert x in multiset(c.node.errs);
      var k :| 0 <= k < |c.node.errs| && c.node.errs[k] == x;
      assert WaitErrors(c)[k] == Joined(x);
    }
  }

  lemma {:induction false} PendingMember(i: NodeId, prog: seq<Action>, a: Action)
    requires a in prog && ItemOf(i, a) != []
    ensures Pending(i, prog) != []
  {
    if prog[0] != a { PendingMember(i, prog[1..], a); }
  }

  lemma NothingPending(s: State, i: NodeId, t: nat, a: Action)
    requires Inv(s) && i < |s.cells| && t < |s.threads| && a in s.threads[t]
    requires exists x :: Cancelled(x) in s.cells[i].hist.trace
    ensures ItemOf(i, a) == []
  {
    var c := s.cells[i];
    assert PendingOk(s, i, t) && CellOk(c);
    if !c.node.armed && c.hist.runner == t {
      ScriptEnd(c.hist.trace, Pending(i, s.threads[t]), c.hist.accepted, c.hist.cause.value);
    }
    if ItemOf(i, a) != [] { PendingMember(i, s.threads[t], a); }
  }

  // The grace deadline.

  /** Until the hard stop the stored deadline is the earliest one asked for; a grace
      timer that has fired, superseded or not, is then due; and a hard stop for an
      expired grace happened no earlier than that, unless a stop asked for no grace. */
  lemma GraceDeadline(s: State, i: NodeId)
    requires Reachable(s) && i < |s.cells|
    ensures var n, h := s.cells[i].node, s.cells[i].hist;
      && (n.armed ==> n.stopAt == Earliest(h.deadlines))
      && (forall d :: n.armed && Somewhere(s, Expire(i, d)) ==>
            n.stopAt.Some? && n.stopAt.value <= d <= s.now)
      && (h.cause == Some(ErrGracePeriodExpired) && !h.rushed ==>
            Earliest(h.deadlines).Some? && Earliest(h.deadlines).value <= h.hardAt)
  {
    ReachableInv(s);
    assert CellOk(s.cells[i]);
    forall d | s.cells[i].node.armed && Somewhere(s, Expire(i, d))
      ensures s.cells[i].node.stopAt.Some? && s.cells[i].node.stopAt.value <= d <= s.now
    {
      var t :| 0 <= t < |s.threads| && Expire(i, d) in s.threads[t];
      assert ProgOk(s.cells, s.now, s.threads[t]) && ActOk(s.cells, s.now, Expire(i, d));
    }
  }

  lemma StepDeadline(s: State, l: Label, i: NodeId)
    requires Inv(s) && Enabled(s, l) && i < |s.cells|
    requires Step(s, l).cells[i].node.armed && s.cells[i].node.stopAt.Some?
    ensures var stopAt := Step(s, l).cells[i].node.stopAt;
      stopAt.Some? && stopAt.value <= s.cells[i].node.stopAt.value
  {
    if l.Run? {
      var a := s.threads[l.t][0];
      RunReady(s, l.t, l.choice);
      if i == Target(a) { ExecDeadline(a, s.cells[Target(a)], s.now, l.t, l.choice); }
    }
  }

  /** Over any run that ends before the node's hard stop, a deadline once set never
      moves later and is never dropped. */
  lemma {:induction false} DeadlineNeverLater(s: State, ls: seq<Label>, u: State, i: NodeId)
    requires Reachable(s) && IsRun(s, ls, u) && i < |s.cells| && s.cells[i].node.stopAt.Some?
    requires i < |u.cells| && u.cells[i].node.armed
    ensures u.cells[i].node.stopAt.Some?
    ensures u.cells[i].node.stopAt.value <= s.cells[i].node.stopAt.value
    decreases |ls|
  {
    if ls != [] {
      ReachableInv(s);
      ReachableStep(s, ls[0]);
      var v := Step(s, ls[0]);
      ReachableInv(v);
      if !v.cells[i].node.armed { RunFixes(v, ls[1..], u, i); }
      StepDeadline(s, ls[0], i);
      DeadlineNeverLater(v, ls[1..], u, i);
    }
  }

  lemma ExecDeadline(a: Action, c: Cell, now: int, t: nat, ch: Choice)
    requires Ready(a, c, now, ch) && c.node.stopAt.Some?
    requires Exec(a, c, now, t, ch).cell.node.armed
    ensures var stopAt := Exec(a, c, now, t, ch).cell.node.stopAt;
      stopAt.Some? && stopAt.value <= c.node.stopAt.value
  {
    if Stopper(a) {
      StopperOutcome(a, c, now, t, ch);
    } else if a.Inc? {
      IncEffect(a, c, now);
    }
  }

  lemma ExpireIsSilent(c: Cell, n: NodeId, d: int, now: int, t: nat, ch: Choice)
    requires !c.node.armed
    ensures Exec(Expire(n, d), c, now, t, ch) == Effect(c, [], [], false)
  {
    assert HardStop(c.node, ErrGracePeriodExpired) == Outcome(c.node, [], None);
    assert Backwards(n, []) + [] == [];
  }

  lemma SilentStep(u: State, t: nat, ch: Choice)
    requires Enabled(u, Run(t, ch))
    requires var a := u.threads[t][0];
      Exec(a, u.cells[Target(a)], u.now, t, ch) == Effect(u.cells[Target(a)], [], [], false)
    ensures StepRun(u, t, ch) == u.(threads := u.threads[t := u.threads[t][1..]])
  {
    var a := u.threads[t][0];
    assert [] + u.threads[t][1..] == u.threads[t][1..];
    assert u.cells[Target(a) := u.cells[Target(a)]] == u.cells;
  }

  /** At any time after the node's hard stop, a timer of it that goes off changes nothing
      and leads to nothing: the step only ends the timer's own work. */
  lemma LateTimerIsSilent(s: State, ls: seq<Label>, u: State, i: NodeId, t: nat, ch: Choice)
    requires Reachable(s) && i < |s.cells| && !s.cells[i].node.armed && IsRun(s, ls, u)
    requires Enabled(u, Run(t, ch)) && u.threads[t][0].Expire? && u.threads[t][0].n == i
    ensures StepRun(u, t, ch) == u.(threads := u.threads[t := u.threads[t][1..]])
  {
    ReachableInv(s);
    RunFixes(s, ls, u, i);
    ExpireIsSilent(u.cells[i], i, u.threads[t][0].deadline, u.now, t, ch);
    SilentStep(u, t, ch);
  }
}
