/**
  Stops come to their end: when the threads have done what they can, every node that
  was asked to stop has run its callbacks and completed its cancel, and so has
  everything below it.
 */
module StopTreeLiveness {
  import opened StateNode
  import opened StopTree
  import opened StopTreeGauges
  import opened StopTreeLocal
  import opened StopTreeConclusion
  import opened StopTreePaths
  import opened StopTreeInvariant
  import opened StopTreeRuns
  import opened StopTreeTheorems
  import opened StopTreeTermination

  /** A run of the threads alone, at the end of which no thread can take a step. */
  ghost predicate RunsOut(s: State, ls: seq<Label>, u: State) {
    && IsRun(s, ls, u)
    && (forall l :: l in ls ==> l.Run?)
    && (forall t, ch :: !Enabled(u, Run(t, ch)))
  }

  ghost predicate AskedToStop(n: Node) {
    n.stopping || n.stopOnIdle.Some?
  }

  /** The hard stop of a node is complete: all its accepted callbacks and its cancel. */
  ghost predicate Concluded(c: Cell) {
    && c.node.count == 0 && !c.node.armed && c.hist.cause.Some?
    && c.hist.trace == Script(c.hist.accepted, c.hist.cause.value)
  }

  lemma {:induction false} RunsKeepAsking(s: State, ls: seq<Label>, u: State, i: NodeId)
    requires Inv(s) && IsRun(s, ls, u) && i < |s.cells| && AskedToStop(s.cells[i].node)
    ensures i < |u.cells| && AskedToStop(u.cells[i].node)
    decreases |ls|
  {
    if ls != [] {
      StepKeepsInv(s, ls[0]);
      StepKeepsAsking(s, ls[0], i);
      RunsKeepAsking(Step(s, ls[0]), ls[1..], u, i);
    }
  }

  lemma StepKeepsAsking(s: State, l: Label, i: NodeId)
    requires Inv(s) && Enabled(s, l) && i < |s.cells| && AskedToStop(s.cells[i].node)
    ensures AskedToStop(Step(s, l).cells[i].node)
  {
    if l.Run? {
      RunReady(s, l.t, l.choice);
      var a := s.threads[l.t][0];
      if i == Target(a) { ExecKeepsAsking(a, s.cells[i], s.now, l.t, l.choice); }
    }
  }

  lemma ExecKeepsAsking(a: Action, c: Cell, now: int, t: nat, ch: Choice)
    requires Ready(a, c, now, ch) && AskedToStop(c.node)
    ensures AskedToStop(Exec(a, c, now, t, ch).cell.node)
  {
    if Stopper(a) {
      StopperOutcome(a, c, now, t, ch);
      if a.Dec? { ApplyKeepsIdle(c.node, now); }
    } else if a.Inc? {
      IncEffect(a, c, now);
    }
  }

  lemma ApplyKeepsIdle(n: Node, now: int)
    ensures ApplyLocked(n, -1, now).out.node.stopOnIdle == n.stopOnIdle
  {
  }

  lemma NoWorkLeft(s: State)
    requires Inv(s) && forall t, ch :: !Enabled(s, Run(t, ch))
    ensures forall t :: 0 <= t < |s.threads| ==> s.threads[t] == []
  {
    forall t | 0 <= t < |s.threads| ensures s.threads[t] == [] {
      if s.threads[t] != [] { NeverBlocked(s, t); }
    }
  }

  /** Every run of the threads from a reachable state is finite, and when none of them can
      go on, all tasks have ended and each node that was asked to stop, by Stop or by
      StopOnIdle, has completed its callbacks, last accepted first, and its cancel. */
  lemma StopConcludes(s: State, ls: seq<Label>, u: State, i: NodeId)
    requires Reachable(s) && RunsOut(s, ls, u) && i < |s.cells| && AskedToStop(s.cells[i].node)
    ensures |ls| <= TotalCost(s)
    ensures i < |u.cells| && Concluded(u.cells[i])
  {
    ReachableInv(s);
    ReachableRun(s, ls, u);
    ReachableInv(u);
    CascadesTerminate(s, ls, u);
    RunsKeepAsking(s, ls, u, i);
    NoWorkLeft(u);
    AskedConcludes(u, i);
  }

  lemma AskedConcludes(u: State, i: NodeId)
    requires Reachable(u) && i < |u.cells| && AskedToStop(u.cells[i].node)
    requires forall t :: 0 <= t < |u.threads| ==> u.threads[t] == []
    ensures u.cells[i].node.stopping && Concluded(u.cells[i])
  {
    TicketConservation(u, i);
    AllZero(Holds(i), u.threads);
    LifecycleAlways(u, i);
    AcceptedRunsOnce(u, i);
  }

  /** The stop has then also concluded at every node below. */
  lemma StopConcludesBelow(s: State, ls: seq<Label>, u: State, i: NodeId, m: NodeId)
    requires Reachable(s) && RunsOut(s, ls, u) && i < |s.cells| && AskedToStop(s.cells[i].node)
    requires ParentsBelow(u.cells) && m < |u.cells| && Above(u.cells, i, m)
    ensures Concluded(u.cells[m])
  {
    StopConcludes(s, ls, u, i);
    ReachableInv(s);
    ReachableRun(s, ls, u);
    ReachableInv(u);
    NoWorkLeft(u);
    RunsKeepAsking(s, ls, u, i);
    AskedConcludes(u, i);
    assert StopsDelivered(u);
    StopPropagation(u, i, m);
    AskedConcludes(u, m);
  }
}
