/**
  The hard stop of a node as a script: its accepted callbacks, last accepted first,
  and then the cancellation.  What is done and what is pending add up to the script.
 */
module StopTreeConclusion {
  import opened Options
  import opened StateNode
  import opened StopTree
  import opened StopTreeGauges
  import opened StopTreeLocal

  function ItemOf(i: NodeId, a: Action): seq<Item> {
    match a
    case Due(n, cb) => if n == i then [Ran(cb)] else []
    case Running(n, cb) => if n == i then [Ran(cb)] else []
    case Returned(n, cb, _) => if n == i then [Ran(cb)] else []
    case Cancel(n, cause) => if n == i then [Cancelled(cause)] else []
    case CancelCtx(n, cause) => if n == i then [Cancelled(cause)] else []
    case _ => []
  }

  /** The items of node i that a program will still complete, in order. */
  function Pending(i: NodeId, prog: seq<Action>): seq<Item> {
    if prog == [] then [] else ItemOf(i, prog[0]) + Pending(i, prog[1..])
  }

  function RanBackwards(cbs: seq<Callback>): seq<Item> {
    if cbs == [] then [] else RanBackwards(cbs[1..]) + [Ran(cbs[0])]
  }

  function Script(accepted: seq<Callback>, cause: Cause): seq<Item> {
    RanBackwards(accepted) + [Cancelled(cause)]
  }

  lemma {:induction false} PendingConcat(i: NodeId, p: seq<Action>, q: seq<Action>)
    ensures Pending(i, p + q) == Pending(i, p) + Pending(i, q)
  {
    if p == [] {
      assert p + q == q;
    } else {
      assert (p + q)[1..] == p[1..] + q;
      PendingConcat(i, p[1..], q);
    }
  }

  lemma PendingOne(i: NodeId, a: Action)
    ensures Pending(i, [a]) == ItemOf(i, a)
  {
    assert [a][1..] == [];
  }

  lemma {:induction false} PendingNone(i: NodeId, prog: seq<Action>)
    requires forall a :: a in prog ==> ItemOf(i, a) == []
    ensures Pending(i, prog) == []
  {
    if prog != [] { PendingNone(i, prog[1..]); }
  }

  lemma {:induction false} PendingDues(i: NodeId, n: NodeId, cbs: seq<Callback>)
    ensures Pending(i, Dues(n, cbs)) == if i == n then RanBackwards(cbs) else []
  {
    if cbs != [] {
      PendingDues(i, n, cbs[1..]);
      PendingConcat(i, Dues(n, cbs[1..]), [Due(n, cbs[0])]);
      PendingOne(i, Due(n, cbs[0]));
    }
  }

  lemma PendingHard(i: NodeId, n: NodeId, cause: Cause, cbs: seq<Callback>)
    ensures Pending(i, Dues(n, cbs) + [Cancel(n, cause)]) == if i == n then Script(cbs, cause) else []
  {
    PendingDues(i, n, cbs);
    PendingConcat(i, Dues(n, cbs), [Cancel(n, cause)]);
    PendingOne(i, Cancel(n, cause));
  }

  lemma PendingWork(i: NodeId, n: NodeId, hooks: map<NodeId, int>, hard: Option<Cause>, cbs: seq<Callback>)
    ensures Pending(i, Backwards(n, Jobs(hooks, hard, cbs)))
            == if i == n && hard.Some? then Script(cbs, hard.value) else []
  {
    WorkOrder(n, hooks, hard, cbs);
    PendingConcat(i, HardWork(n, hard, cbs), HookWork(n, hooks));
    PendingNone(i, HookWork(n, hooks));
    if hard.Some? { PendingHard(i, n, hard.value, cbs); }
  }

  /** What one action does to the script of its target: it takes the cancel and leaves
      the whole script, or it moves at most one item from pending to done. */
  ghost predicate Advances(a: Action, c: Cell, e: Effect, t: nat)
    requires Shaped(a)
  {
    var i := Target(a);
    if c.node.armed && !e.cell.node.armed then
      && e.cell.hist.cause.Some? && e.cell.hist.runner == t && e.cell.hist.trace == c.hist.trace
      && e.cell.hist.outstanding == e.cell.node.count && e.cell.hist.accepted == c.hist.accepted
      && Pending(i, e.push) == Script(e.cell.hist.accepted, e.cell.hist.cause.value)
      && ItemOf(i, a) == []
    else
      && |e.cell.hist.trace| >= |c.hist.trace|
      && e.cell.hist.trace + Pending(i, e.push) == c.hist.trace + ItemOf(i, a)
      && (!c.node.armed ==>
            && e.cell.hist.accepted == c.hist.accepted && e.cell.hist.cause == c.hist.cause
            && e.cell.hist.runner == c.hist.runner)
  }

  lemma ExecAdvances(a: Action, c: Cell, now: int, t: nat, ch: Choice)
    requires Ready(a, c, now, ch)
    ensures Advances(a, c, Exec(a, c, now, t, ch), t)
    ensures Pending(Target(a), Exec(a, c, now, t, ch).spawn) == []
  {
    if Stopper(a) {
      StopperAdvances(a, c, now, t, ch);
    } else if a.Inc? {
      IncPending(Target(a), a, c, now);
      IncEffect(a, c, now);
    } else if a.Hooks? {
      PendingNone(a.n, Stops(a.hooks, ch.order));
    } else {
      LightAdvances(a, c, now, t, ch);
    }
  }

  lemma StopperAdvances(a: Action, c: Cell, now: int, t: nat, ch: Choice)
    requires Ready(a, c, now, ch) && Stopper(a)
    ensures Advances(a, c, Exec(a, c, now, t, ch), t)
    ensures Pending(Target(a), Exec(a, c, now, t, ch).spawn) == []
  {
    StopperPending(Target(a), a, c, now, t, ch);
    StopperHistory(a, c, now, t, ch);
    assert Exec(a, c, now, t, ch).cell.hist.trace + [] == c.hist.trace;
  }

  /** What a stopping action writes into the history. */
  lemma StopperHistory(a: Action, c: Cell, now: int, t: nat, ch: Choice)
    requires Ready(a, c, now, ch) && Stopper(a)
    ensures var e, hard := Exec(a, c, now, t, ch), StopOutcome(a, c, now).hard;
      && e.cell.hist.trace == c.hist.trace && e.cell.hist.accepted == c.hist.accepted
      && (hard.Some? <==> c.node.armed && !e.cell.node.armed)
      && (hard.Some? ==>
            && c.node.deferred == c.hist.accepted && e.cell.hist.cause == hard
            && e.cell.hist.runner == t && e.cell.hist.outstanding == e.cell.node.count)
      && (hard.None? ==> e.cell.hist.cause == c.hist.cause && e.cell.hist.runner == c.hist.runner)
    ensures ItemOf(Target(a), a) == []
  {
    StopperOutcome(a, c, now, t, ch);
    var out := StopOutcome(a, c, now);
    if a.Stop? { NoteSoftWrites(c.hist, c.node, out, a.grace, now, t); }
    else { NoteWrites(c.hist, out, now, t); }
  }

  /** What a note of an outcome leaves alone, and what it writes at a hard stop. */
  ghost predicate Writes(h: History, k: History, out: Outcome, t: nat) {
    && k.trace == h.trace && k.accepted == h.accepted
    && (out.hard.Some? ==> k.cause == out.hard && k.runner == t && k.outstanding == out.node.count)
    && (out.hard.None? ==> k.cause == h.cause && k.runner == h.runner)
  }

  lemma NoteWrites(h: History, out: Outcome, now: int, t: nat)
    ensures Writes(h, Note(h, out, now, t), out, t)
  {
  }

  lemma NoteSoftWrites(h: History, n: Node, out: Outcome, grace: int, now: int, t: nat)
    ensures Writes(h, NoteSoft(h, n, out, grace, now, t), out, t)
  {
  }

  lemma ExecElsewhere(i: NodeId, a: Action, c: Cell, now: int, t: nat, ch: Choice)
    requires Ready(a, c, now, ch) && i != Target(a)
    ensures var e := Exec(a, c, now, t, ch);
      Pending(i, e.push) == [] && Pending(i, e.spawn) == [] && ItemOf(i, a) == []
  {
    if Stopper(a) {
      StopperPending(i, a, c, now, t, ch);
    } else if a.Inc? {
      IncPending(i, a, c, now);
    } else if a.Hooks? {
      PendingNone(i, Stops(a.hooks, ch.order));
    } else {
      LightPending(i, a, c, now, t, ch);
      LightEffect(a, c, now, t, ch);
    }
  }

  lemma StopperPending(i: NodeId, a: Action, c: Cell, now: int, t: nat, ch: Choice)
    requires Ready(a, c, now, ch) && Stopper(a)
    ensures var e := Exec(a, c, now, t, ch);
      var out := StopOutcome(a, c, now);
      && e.spawn == []
      && Pending(i, e.push) == (if i == Target(a) && out.hard.Some?
                                then Script(c.node.deferred, out.hard.value) else [])
  {
    StopperOutcome(a, c, now, t, ch);
    var out := StopOutcome(a, c, now);
    PendingWork(i, Target(a), Taken(c.node, out), out.hard, c.node.deferred);
    var tail := if a.Dec? then After(a.todo) else [];
    PendingConcat(i, Backwards(Target(a), out.jobs), tail);
    PendingNone(i, tail);
  }

  lemma IncPending(i: NodeId, a: Action, c: Cell, now: int)
    requires a.Inc? && a.todo != [] && c.node.count >= 0
    requires a.done == [] <==> c.node.parent.None?
    ensures Pending(i, ExecInc(a, c, now).push) == [] && Pending(i, ExecInc(a, c, now).spawn) == []
  {
    PendingNone(i, ExecInc(a, c, now).push);
    PendingNone(i, ExecInc(a, c, now).spawn);
  }

  lemma LightPending(i: NodeId, a: Action, c: Cell, now: int, t: nat, ch: Choice)
    requires Shaped(a) && Allowed(a, ch) && Light(a)
    ensures var e := Exec(a, c, now, t, ch);
      Pending(i, e.push) == if a.Returned? || a.CancelCtx? then [] else ItemOf(i, a)
  {
    if Concluding(a) { ConcludingPending(i, a, c, now, t, ch); }
    else { OtherPending(i, a, c, now, t, ch); }
  }

  lemma ConcludingPending(i: NodeId, a: Action, c: Cell, now: int, t: nat, ch: Choice)
    requires Concluding(a)
    ensures var e := Exec(a, c, now, t, ch);
      Pending(i, e.push) == if a.Returned? || a.CancelCtx? then [] else ItemOf(i, a)
  {
    match a
    case Due(n, cb) => PendingOne(i, Running(n, cb));
    case Running(n, cb) => PendingOne(i, Returned(n, cb, ch.err));
    case Returned(_, _, _) =>
    case Cancel(_, _) => CancelPending(i, a, c, ch);
    case CancelCtx(_, _) =>
  }

  lemma CancelPending(i: NodeId, a: Action, c: Cell, ch: Choice)
    requires a.Cancel?
    ensures Pending(i, ExecCancel(a, c, ch).push) == ItemOf(i, a)
  {
    var last := CancelCtx(a.n, a.cause);
    var detach := ExecCancel(a, c, ch).push[..|ExecCancel(a, c, ch).push| - 1];
    assert ExecCancel(a, c, ch).push == detach + [last];
    PendingConcat(i, detach, [last]);
    PendingNone(i, detach);
    PendingOne(i, last);
  }

  lemma OtherPending(i: NodeId, a: Action, c: Cell, now: int, t: nat, ch: Choice)
    requires Shaped(a) && Allowed(a, ch) && Light(a) && !Concluding(a)
    ensures Pending(i, Exec(a, c, now, t, ch).push) == [] && ItemOf(i, a) == []
  {
    PendingNone(i, Exec(a, c, now, t, ch).push);
  }

  lemma LightAdvances(a: Action, c: Cell, now: int, t: nat, ch: Choice)
    requires Ready(a, c, now, ch) && Light(a)
    ensures Advances(a, c, Exec(a, c, now, t, ch), t)
    ensures Pending(Target(a), Exec(a, c, now, t, ch).spawn) == []
  {
    LightPending(Target(a), a, c, now, t, ch);
    LightEffect(a, c, now, t, ch);
    if Concluding(a) { ConcludingTrace(a, c, now, t, ch); } else { OtherTrace(a, c, now, t, ch); }
  }

  lemma ConcludingTrace(a: Action, c: Cell, now: int, t: nat, ch: Choice)
    requires Concluding(a)
    ensures var e := Exec(a, c, now, t, ch);
      && e.cell.node.armed == c.node.armed
      && e.cell.hist.(trace := c.hist.trace, received := c.hist.received) == c.hist
      && e.cell.hist.trace == c.hist.trace + (if a.Returned? || a.CancelCtx? then ItemOf(a.n, a) else [])
  {
  }

  lemma OtherTrace(a: Action, c: Cell, now: int, t: nat, ch: Choice)
    requires Shaped(a) && Allowed(a, ch) && Light(a) && !Concluding(a)
    ensures var h, k := c.hist, Exec(a, c, now, t, ch).cell.hist;
      && Exec(a, c, now, t, ch).cell.node.armed == c.node.armed
      && k.trace == h.trace && k.cause == h.cause && k.runner == h.runner
      && (!c.node.armed ==> k.accepted == h.accepted)
  {
  }

  /** Thread r, whose program will complete the items p, plays its part in the script. */
  ghost predicate Fulfils(c: Cell, r: nat, p: seq<Item>) {
    if c.node.armed || c.hist.runner != r then p == []
    else c.hist.cause.Some? && c.hist.trace + p == Script(c.hist.accepted, c.hist.cause.value)
  }

  lemma FulfilsSelf(a: Action, c: Cell, e: Effect, t: nat, rest: seq<Item>)
    requires Shaped(a) && CellOk(c) && Grows(c, e.cell) && Advances(a, c, e, t)
    requires Fulfils(c, t, ItemOf(Target(a), a) + rest)
    ensures Fulfils(e.cell, t, Pending(Target(a), e.push) + rest)
  {
    var item, work := ItemOf(Target(a), a), Pending(Target(a), e.push);
    if c.node.armed {
      assert item == [] && rest == [];
      assert work + rest == work;
      if !e.cell.node.armed {
        assert e.cell.hist.trace + work == work;
      }
    } else {
      assert c.hist.trace + (item + rest) == (c.hist.trace + item) + rest;
      assert e.cell.hist.trace + (work + rest) == (e.cell.hist.trace + work) + rest;
    }
  }

  lemma FulfilsOther(a: Action, c: Cell, e: Effect, t: nat, rest: seq<Item>, r: nat, p: seq<Item>)
    requires Shaped(a) && CellOk(c) && Grows(c, e.cell) && Advances(a, c, e, t) && r != t
    requires Fulfils(c, t, ItemOf(Target(a), a) + rest) && Fulfils(c, r, p)
    ensures Fulfils(e.cell, r, p)
  {
    if !c.node.armed && c.hist.runner == r {
      assert ItemOf(Target(a), a) == [];
      var work := Pending(Target(a), e.push);
      assert |e.cell.hist.trace + work| == |c.hist.trace|;
      assert e.cell.hist.trace == e.cell.hist.trace + work == c.hist.trace + [] == c.hist.trace;
    }
  }
}
