/**
  When the stop hooks of children run, relative to the rest of what a stopping call does.
 */
module StopTreeOrder {
  import opened Options
  import opened StateNode
  import opened StopTree
  import opened StopTreeGauges
  import opened StopTreeLocal
  import opened StopTreeInvariant

  /** The calls that close the stopping channel of a node that is not stopping yet. */
  predicate Propagates(a: Action, n: Node) {
    || a.Stop?
    || (a.Idle? && n.count == 0)
    || (a.Dec? && n.count == 1 && n.stopOnIdle.Some?)
  }

  /** The guard of the branch that leaves the cancel alone. */
  predicate Waits(a: Action, n: Node) {
    a.Stop? && n.count > 0 && a.grace > 0
  }

  function StopCause(a: Action, n: Node): Cause {
    if a.Stop? && n.count > 0 then ErrGracePeriodExpired else ErrStopped
  }

  /** The work of any stopping call on a node with armed hooks. */
  lemma HookedWork(a: Action, c: Cell, now: int, t: nat, ch: Choice)
    requires Ready(a, c, now, ch) && Stopper(a) && c.node.hooks != map[]
    ensures var n := Target(a);
      Exec(a, c, now, t, ch).push
      == (if !Propagates(a, c.node) then []
          else if Waits(a, c.node) then [Hooks(n, c.node.hooks)]
          else Dues(n, c.node.deferred) + [Cancel(n, StopCause(a, c.node))] + [Hooks(n, c.node.hooks)])
         + (if a.Dec? then After(a.todo) else [])
  {
    StopperOutcome(a, c, now, t, ch);
    var out := StopOutcome(a, c, now);
    HookedOutcome(a, c, now, ch);
    WorkOrder(Target(a), Taken(c.node, out), out.hard, c.node.deferred);
  }

  /** A release runs the whole work of a node's section before it goes on to the next node
      below, and stops a node exactly when it takes the last task of one that is stopping or
      stops when idle. */
  lemma ReleaseWork(a: Action, c: Cell, now: int, t: nat, ch: Choice)
    requires Ready(a, c, now, ch) && a.Dec?
    ensures var n := c.node;
      var last := n.count == 1 && (n.stopping || n.stopOnIdle.Some?);
      var hard := if last && n.armed then Some(ErrStopped) else None;
      && Exec(a, c, now, t, ch).push
         == HardWork(a.todo[0], hard, n.deferred) + HookWork(a.todo[0], if last then n.hooks else map[])
            + (if |a.todo| > 1 then [Dec(a.todo[1..])] else [])
      && Exec(a, c, now, t, ch).cell.node.stopping == (n.stopping || last)
  {
    StopperOutcome(a, c, now, t, ch);
    var out := StopOutcome(a, c, now);
    ReleaseOutcome(c, now);
    WorkOrder(a.todo[0], Taken(c.node, out), out.hard, c.node.deferred);
  }

  lemma ReleaseOutcome(c: Cell, now: int)
    requires CellOk(c) && c.node.count >= 1
    ensures var n, out := c.node, ApplyLocked(c.node, -1, now).out;
      var last := n.count == 1 && (n.stopping || n.stopOnIdle.Some?);
      && Taken(n, out) == (if last then n.hooks else map[])
      && out.hard == (if last && n.armed then Some(ErrStopped) else None)
      && out.node.stopping == (n.stopping || last)
  {
  }

  lemma HookedOutcome(a: Action, c: Cell, now: int, ch: Choice)
    requires Ready(a, c, now, ch) && Stopper(a) && c.node.hooks != map[]
    ensures var out := StopOutcome(a, c, now);
      && Taken(c.node, out) == (if Propagates(a, c.node) then c.node.hooks else map[])
      && |c.node.hooks| > 0
      && out.hard == if Propagates(a, c.node) && !Waits(a, c.node) then Some(StopCause(a, c.node)) else None
  {
    assert c.node.armed && !c.node.stopping && !a.Expire?;
    var k :| k in c.node.hooks;
    assert c.node.hooks.Keys != {};
  }

  /** The hooks of the children run right after the stopping channel is closed, before
      anything else, if and only if the call is a Stop with a grace period on a node with
      running tasks.  On every other call that propagates they run after all callbacks
      and after the cancel. */
  lemma HooksFirstIff(a: Action, c: Cell, now: int, t: nat, ch: Choice)
    requires Ready(a, c, now, ch) && Stopper(a) && c.node.hooks != map[]
    ensures var push, h := Exec(a, c, now, t, ch).push, Hooks(Target(a), c.node.hooks);
      && (h in push <==> Propagates(a, c.node))
      && (Propagates(a, c.node) ==> (push[0] == h <==> Waits(a, c.node)))
  {
    HookedWork(a, c, now, t, ch);
    var push, cbs := Exec(a, c, now, t, ch).push, c.node.deferred;
    if Propagates(a, c.node) && !Waits(a, c.node) {
      HooksInTheMiddle(Dues(Target(a), cbs), Cancel(Target(a), StopCause(a, c.node)),
                       Hooks(Target(a), c.node.hooks), if a.Dec? then After(a.todo) else []);
      if cbs != [] { DuesMember(Target(a), cbs, Dues(Target(a), cbs)[0]); }
    }
  }

  lemma HooksInTheMiddle(p: seq<Action>, a: Action, h: Action, q: seq<Action>)
    ensures h in p + [a] + [h] + q
    ensures (p + [a] + [h] + q)[0] == if p == [] then a else p[0]
  {
    assert (p + [a] + [h] + q)[|p| + 1] == h;
  }
}
