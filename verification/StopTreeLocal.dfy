/**
  What one action does to the cell of its target and to the gauges, for every action.
 */
module StopTreeLocal {
  import opened Options
  import opened StateNode
  import opened StopTree
  import opened StopTreeGauges

  function Earliest(ds: seq<int>): (m: Option<int>)
    ensures m.None? <==> ds == []
    ensures m.Some? ==> m.value in ds && forall d :: d in ds ==> m.value <= d
  {
    if ds == [] then None
    else
      var m := Earliest(ds[..|ds| - 1]);
      var d := ds[|ds| - 1];
      assert forall x :: x in ds <==> x in ds[..|ds| - 1] || x == d;
      if m.Some? && m.value <= d then m else Some(d)
  }

  lemma EarliestAppend(ds: seq<int>, d: int)
    ensures var m := Earliest(ds);
      Earliest(ds + [d]) == if m.Some? && m.value <= d then m else Some(d)
  {
    assert (ds + [d])[..|ds|] == ds;
  }

  /** The lifecycle of a node together with what its history must then say. */
  ghost predicate CellOk(c: Cell) {
    var n, h := c.node, c.hist;
    && Lifecycle(n)
    && (h.timers != {} ==> n.stopping)
    && (n.armed ==>
          && h.cause == None && h.trace == [] && h.late == []
          && n.deferred == h.accepted
          && n.stopAt == Earliest(h.deadlines)
          && (forall d :: d in h.timers ==> n.stopAt.Some? && n.stopAt.value <= d))
    && (!n.armed ==>
          && h.cause.Some? && n.deferred == h.late
          && n.count <= h.outstanding
          && (h.cause.value == ErrStopped <==> h.outstanding == 0)
          && (h.cause.value == ErrGracePeriodExpired && !h.rushed ==>
                Earliest(h.deadlines).Some? && Earliest(h.deadlines).value <= h.hardAt))
  }

  /** What an action may rely on in the cell of its target. */
  ghost predicate Fits(a: Action, c: Cell, now: int) {
    && (a.Inc? ==> (a.done == [] <==> c.node.parent.None?))
    && (a.Dec? ==> c.node.count >= 1)
    && (a.Expire? ==> a.deadline in c.hist.timers && a.deadline <= now)
    && (Concluding(a) ==> !c.node.armed)
  }

  /** Work that exists only once the cancel has been taken. */
  predicate Concluding(a: Action) {
    a.Due? || a.Running? || a.Returned? || a.Cancel? || a.CancelCtx?
  }

  ghost predicate Ready(a: Action, c: Cell, now: int, ch: Choice) {
    Shaped(a) && Allowed(a, ch) && CellOk(c) && Fits(a, c, now)
  }

  predicate Stopper(a: Action) {
    a.Dec? || a.Stop? || a.Idle? || a.Expire?
  }

  /** The outcome of the actions that can stop their target. */
  function StopOutcome(a: Action, c: Cell, now: int): Outcome
    requires Stopper(a)
  {
    match a
    case Dec(_) => ApplyLocked(c.node, -1, now).out
    case Stop(_, grace) => SoftStop(c.node, grace, now)
    case Idle(_, grace) => StopOnIdle(c.node, grace, now)
    case Expire(_, _) => HardStop(c.node, ErrGracePeriodExpired)
  }

  lemma OutcomeKeeps(a: Action, c: Cell, now: int, ch: Choice)
    requires Ready(a, c, now, ch) && Stopper(a)
    ensures var out := StopOutcome(a, c, now);
      && Lifecycle(out.node) && Disarms(c.node, out)
      && out.node.count == c.node.count - (if a.Dec? then 1 else 0)
      && (out.hard.Some? ==> (out.hard.value == ErrStopped <==> out.node.count == 0))
    ensures a.Dec? ==> !ApplyLocked(c.node, -1, now).overReleased
  {
    match a
    case Dec(_) => ApplyKeepsLifecycle(c.node, -1, now);
    case Stop(_, grace) => SoftStopDisarms(c.node, grace, now);
    case Idle(_, grace) => StopOnIdleKeepsLifecycle(c.node, grace, now);
    case Expire(_, _) =>
      assert c.node.stopping;
      HardStopDisarms(c.node, ErrGracePeriodExpired);
  }

  lemma StopperOutcome(a: Action, c: Cell, now: int, t: nat, ch: Choice)
    requires Ready(a, c, now, ch) && Stopper(a)
    ensures var out := StopOutcome(a, c, now);
      var e := Exec(a, c, now, t, ch);
      && Lifecycle(out.node) && Disarms(c.node, out)
      && out.node.count == c.node.count - (if a.Dec? then 1 else 0)
      && (out.hard.Some? ==> (out.hard.value == ErrStopped <==> out.node.count == 0))
      && e.cell.node == out.node && e.spawn == [] && !e.panicked
      && e.push == Backwards(Target(a), out.jobs) + (if a.Dec? then After(a.todo) else [])
      && e.cell.hist == (if a.Stop? then NoteSoft(c.hist, c.node, out, a.grace, now, t)
                         else Note(c.hist, out, now, t))
  {
    OutcomeKeeps(a, c, now, ch);
    StopperExec(a, c, now, t, ch);
  }

  lemma StopperExec(a: Action, c: Cell, now: int, t: nat, ch: Choice)
    requires Shaped(a) && Allowed(a, ch) && Stopper(a)
    requires a.Dec? ==> !ApplyLocked(c.node, -1, now).overReleased
    ensures var out := StopOutcome(a, c, now);
      var e := Exec(a, c, now, t, ch);
      && e.cell.node == out.node && e.spawn == [] && !e.panicked
      && e.push == Backwards(Target(a), out.jobs) + (if a.Dec? then After(a.todo) else [])
      && e.cell.hist == (if a.Stop? then NoteSoft(c.hist, c.node, out, a.grace, now, t)
                         else Note(c.hist, out, now, t))
  {
  }

  function Taken(n: Node, out: Outcome): map<NodeId, int> {
    if out.node.hooks == map[] then n.hooks else map[]
  }

  /** A gauge on the work that a stopping action leaves. */
  lemma StopperReads(g: Gauge, a: Action, c: Cell, now: int, t: nat, ch: Choice)
    requires Ready(a, c, now, ch) && Stopper(a)
    ensures var e := Exec(a, c, now, t, ch);
      var out := StopOutcome(a, c, now);
      var work := Backwards(Target(a), Jobs(Taken(c.node, out), out.hard, c.node.deferred));
      ReadProg(g, e.push) == ReadProg(g, work)
                             + (if a.Dec? && |a.todo| > 1 then Reading(g, Dec(a.todo[1..])) else 0)
  {
    StopperOutcome(a, c, now, t, ch);
    var out := StopOutcome(a, c, now);
    var tail := if a.Dec? then After(a.todo) else [];
    ReadConcat(g, Backwards(Target(a), out.jobs), tail);
    if tail != [] { ReadOne(g, tail[0]); }
  }

  /** An increment is refused exactly when the node is stopping. */
  lemma IncEffect(a: Action, c: Cell, now: int)
    requires a.Inc? && a.todo != [] && c.node.count >= 0
    requires a.done == [] <==> c.node.parent.None?
    ensures var e := ExecInc(a, c, now);
      var path := a.done + [a.todo[0]];
      && !e.panicked
      && (c.node.stopping ==>
            e.cell == c && e.spawn == [] && e.push == if a.done == [] then [] else [Dec(a.done)])
      && (!c.node.stopping ==>
            && e.cell == c.(node := c.node.(count := c.node.count + 1))
            && e.push + e.spawn == [if |a.todo| > 1 then Inc(path, a.todo[1..], a.mode) else Body(path, a.mode)])
  {
  }

  /** A gauge on an increment. */
  lemma IncReads(g: Gauge, a: Action, c: Cell, now: int)
    requires a.Inc? && a.todo != [] && c.node.count >= 0
    requires a.done == [] <==> c.node.parent.None?
    ensures var e := ExecInc(a, c, now);
      var path := a.done + [a.todo[0]];
      ReadProg(g, e.push) + ReadProg(g, e.spawn) ==
        if c.node.stopping then (if a.done == [] then 0 else Reading(g, Dec(a.done)))
        else Reading(g, if |a.todo| > 1 then Inc(path, a.todo[1..], a.mode) else Body(path, a.mode))
  {
    IncEffect(a, c, now);
    var e := ExecInc(a, c, now);
    ReadConcat(g, e.push, e.spawn);
    if e.push + e.spawn != [] { ReadOne(g, (e.push + e.spawn)[0]); }
  }

  predicate Light(a: Action) {
    !Stopper(a) && !a.Inc? && !a.Hooks?
  }

  /** The other actions lead to at most two more, and leave the count alone. */
  lemma LightEffect(a: Action, c: Cell, now: int, t: nat, ch: Choice)
    requires Shaped(a) && Allowed(a, ch) && Light(a)
    ensures var e := Exec(a, c, now, t, ch);
      && e.spawn == [] && |e.push| <= 2 && !e.panicked && e.cell.node.count == c.node.count
  {
  }

  lemma LightReads(g: Gauge, a: Action, c: Cell, now: int, t: nat, ch: Choice)
    requires Shaped(a) && Allowed(a, ch) && Light(a)
    ensures var push := Exec(a, c, now, t, ch).push;
      && |push| <= 2
      && ReadProg(g, push) == (if |push| > 0 then Reading(g, push[0]) else 0)
                              + (if |push| > 1 then Reading(g, push[1]) else 0)
  {
    LightEffect(a, c, now, t, ch);
    ReadShort(g, Exec(a, c, now, t, ch).push);
  }

  lemma ReadShort(g: Gauge, p: seq<Action>)
    requires |p| <= 2
    ensures ReadProg(g, p) == (if |p| > 0 then Reading(g, p[0]) else 0) + (if |p| > 1 then Reading(g, p[1]) else 0)
  {
    if |p| == 2 { assert p[1..] == [p[1]]; ReadOne(g, p[1]); }
  }

  /** Counts: an action moves a hold, and only its target's count follows. */
  lemma ExecHolds(i: NodeId, a: Action, c: Cell, now: int, t: nat, ch: Choice)
    requires Ready(a, c, now, ch)
    ensures var e := Exec(a, c, now, t, ch);
      ReadProg(Holds(i), e.push) + ReadProg(Holds(i), e.spawn)
      == Reading(Holds(i), a) + (if i == Target(a) then e.cell.node.count - c.node.count else 0)
  {
    var g := Holds(i);
    if Stopper(a) {
      StopperHolds(i, a, c, now, t, ch);
    } else if a.Inc? {
      IncEffect(a, c, now);
      IncReads(g, a, c, now);
    } else if a.Hooks? {
      ReadStops(g, a.hooks, ch.order);
    } else {
      LightHolds(i, a, c, now, t, ch);
    }
  }

  lemma StopperHolds(i: NodeId, a: Action, c: Cell, now: int, t: nat, ch: Choice)
    requires Ready(a, c, now, ch) && Stopper(a)
    ensures var e := Exec(a, c, now, t, ch);
      && ReadProg(Holds(i), e.push)
         == Reading(Holds(i), a) + (if i == Target(a) then e.cell.node.count - c.node.count else 0)
      && e.spawn == []
  {
    StopperOutcome(a, c, now, t, ch);
    StopperHoldsOnly(i, a, c, now, t, ch);
    if a.Dec? { CountFirst(a.todo, i); }
  }

  lemma StopperHoldsOnly(i: NodeId, a: Action, c: Cell, now: int, t: nat, ch: Choice)
    requires Ready(a, c, now, ch) && Stopper(a)
    ensures ReadProg(Holds(i), Exec(a, c, now, t, ch).push) == if a.Dec? then multiset(a.todo[1..])[i] else 0
  {
    StopperReads(Holds(i), a, c, now, t, ch);
    var out := StopOutcome(a, c, now);
    ReadWork(Holds(i), Target(a), Taken(c.node, out), out.hard, c.node.deferred);
  }

  lemma CountFirst(path: seq<NodeId>, i: NodeId)
    requires path != []
    ensures multiset(path)[i] == (if path[0] == i then 1 else 0) + multiset(path[1..])[i]
  {
    assert path == [path[0]] + path[1..];
  }

  lemma LightHolds(i: NodeId, a: Action, c: Cell, now: int, t: nat, ch: Choice)
    requires Shaped(a) && Allowed(a, ch) && Light(a)
    ensures var e := Exec(a, c, now, t, ch);
      && ReadProg(Holds(i), e.push) == Reading(Holds(i), a)
      && e.spawn == [] && e.cell.node.count == c.node.count
  {
    LightReads(Holds(i), a, c, now, t, ch);
    LightEffect(a, c, now, t, ch);
  }

  /** Errors: what is received is recorded or still owed. */
  lemma ExecOwes(i: NodeId, x: Error, a: Action, c: Cell, now: int, t: nat, ch: Choice)
    requires Ready(a, c, now, ch)
    ensures var e := Exec(a, c, now, t, ch);
      var owed := ReadProg(Owes(i, x), e.push) + ReadProg(Owes(i, x), e.spawn);
      if i == Target(a) then
        multiset(e.cell.hist.received)[x] - multiset(c.hist.received)[x] + Reading(Owes(i, x), a)
        <= multiset(e.cell.node.errs)[x] - multiset(c.node.errs)[x] + owed
      else owed == Reading(Owes(i, x), a)
  {
    var g := Owes(i, x);
    if Stopper(a) {
      StopperOwes(i, x, a, c, now, t, ch);
    } else if a.Inc? {
      IncEffect(a, c, now);
      IncReads(g, a, c, now);
    } else if a.Hooks? {
      ReadStops(g, a.hooks, ch.order);
    } else {
      LightOwes(i, x, a, c, now, t, ch);
    }
  }

  lemma StopperOwes(i: NodeId, x: Error, a: Action, c: Cell, now: int, t: nat, ch: Choice)
    requires Ready(a, c, now, ch) && Stopper(a)
    ensures var e := Exec(a, c, now, t, ch);
      && ReadProg(Owes(i, x), e.push) == 0 && e.spawn == [] && Reading(Owes(i, x), a) == 0
      && e.cell.hist.received == c.hist.received && e.cell.node.errs == c.node.errs
  {
    StopperOwesNothing(i, x, a, c, now, t, ch);
    StopperErrors(a, c, now, t, ch);
  }

  lemma StopperErrors(a: Action, c: Cell, now: int, t: nat, ch: Choice)
    requires Ready(a, c, now, ch) && Stopper(a)
    ensures var e := Exec(a, c, now, t, ch);
      && e.spawn == [] && e.cell.hist.received == c.hist.received && e.cell.node.errs == c.node.errs
  {
    StopperOutcome(a, c, now, t, ch);
  }

  lemma StopperOwesNothing(i: NodeId, x: Error, a: Action, c: Cell, now: int, t: nat, ch: Choice)
    requires Ready(a, c, now, ch) && Stopper(a)
    ensures ReadProg(Owes(i, x), Exec(a, c, now, t, ch).push) == 0
  {
    StopperReads(Owes(i, x), a, c, now, t, ch);
    var out := StopOutcome(a, c, now);
    ReadWork(Owes(i, x), Target(a), Taken(c.node, out), out.hard, c.node.deferred);
  }

  /** The actions that receive or record errors. */
  predicate Errs(a: Action) {
    a.Body? || a.Handle? || a.Running? || a.Returned? || a.Report?
  }

  lemma LightOwes(i: NodeId, x: Error, a: Action, c: Cell, now: int, t: nat, ch: Choice)
    requires Shaped(a) && Allowed(a, ch) && Light(a)
    ensures var e := Exec(a, c, now, t, ch);
      var owed := ReadProg(Owes(i, x), e.push);
      && e.spawn == []
      && (i == Target(a) ==>
            multiset(e.cell.hist.received)[x] - multiset(c.hist.received)[x] + Reading(Owes(i, x), a)
            <= multiset(e.cell.node.errs)[x] - multiset(c.node.errs)[x] + owed)
      && (i != Target(a) ==> owed == Reading(Owes(i, x), a))
  {
    LightReads(Owes(i, x), a, c, now, t, ch);
    LightEffect(a, c, now, t, ch);
    if Errs(a) {
      ErrsCount(a, c, now, t, ch, x);
    } else {
      ErrsSame(a, c, now, t, ch);
    }
  }

  lemma ErrsSame(a: Action, c: Cell, now: int, t: nat, ch: Choice)
    requires Shaped(a) && Allowed(a, ch) && Light(a) && !Errs(a)
    ensures var e := Exec(a, c, now, t, ch);
      && e.cell.hist.received == c.hist.received && e.cell.node.errs == c.node.errs
      && forall b :: b in e.push ==> !b.Handle? && !b.Returned?
  {
  }

  lemma CountLast(xs: seq<Error>, e: Error, x: Error)
    ensures multiset(xs + [e])[x] == multiset(xs)[x] + (if e == x then 1 else 0)
  {
  }

  /** A received error is owed by the next action; a recorded one was owed by this one. */
  lemma ErrsCount(a: Action, c: Cell, now: int, t: nat, ch: Choice, x: Error)
    requires Shaped(a) && Allowed(a, ch) && Errs(a)
    ensures var e := Exec(a, c, now, t, ch);
      var owed := if e.push != [] && (a.Body? || a.Running?) then Reading(Owes(Target(a), x), e.push[0]) else 0;
      && multiset(e.cell.hist.received)[x] == multiset(c.hist.received)[x] + owed
      && multiset(e.cell.node.errs)[x] >= multiset(c.node.errs)[x] + Reading(Owes(Target(a), x), a)
    ensures Elsewhere(a, Exec(a, c, now, t, ch).push)
  {
    if a.Body? { BodyCount(a, c, now, t, ch, x); }
    else if a.Running? { RunningCount(a, c, now, t, ch, x); }
    else { RecordCount(a, c, now, t, ch, x); }
  }

  lemma BodyCount(a: Action, c: Cell, now: int, t: nat, ch: Choice, x: Error)
    requires Shaped(a) && a.Body?
    ensures var e := Exec(a, c, now, t, ch);
      && |e.push| == 1 && e.cell.node == c.node && (e.push[0].Handle? ==> e.push[0].path == a.path)
      && !e.push[0].Returned?
      && multiset(e.cell.hist.received)[x]
         == multiset(c.hist.received)[x] + Reading(Owes(Target(a), x), e.push[0])
  {
    if ch.err.Some? { CountLast(c.hist.received, ch.err.value, x); }
  }

  lemma RunningCount(a: Action, c: Cell, now: int, t: nat, ch: Choice, x: Error)
    requires a.Running?
    ensures var e := Exec(a, c, now, t, ch);
      && e.push == [Returned(a.n, a.cb, ch.err)] && e.cell.node == c.node
      && multiset(e.cell.hist.received)[x]
         == multiset(c.hist.received)[x] + Reading(Owes(a.n, x), e.push[0])
  {
    if ch.err.Some? { CountLast(c.hist.received, ch.err.value, x); }
  }

  lemma RecordCount(a: Action, c: Cell, now: int, t: nat, ch: Choice, x: Error)
    requires Shaped(a) && (a.Handle? || a.Returned? || a.Report?)
    ensures var e := Exec(a, c, now, t, ch);
      && e.cell.hist.received == c.hist.received && (forall b :: b in e.push ==> !b.Handle? && !b.Returned?)
      && multiset(e.cell.node.errs)[x] >= multiset(c.node.errs)[x] + Reading(Owes(Target(a), x), a)
  {
    if a.Handle? || a.Report? { CountLast(c.node.errs, a.err, x); }
    else if a.result.Some? { CountLast(c.node.errs, a.result.value, x); }
  }

  /** Only a task or a callback leads to an action that owes an error, alone and on its node. */
  ghost predicate Elsewhere(a: Action, push: seq<Action>)
    requires Shaped(a)
  {
    && (a.Body? || a.Running? ==> |push| == 1)
    && forall b :: b in push && (b.Handle? || b.Returned?) ==>
         (a.Body? || a.Running?) && Shaped(b) && Target(b) == Target(a)
  }

  /** Propagation: work that will stop k stays pending until k is stopping; an armed
      hook stays armed until the work to run it is pending. */
  lemma ExecStopDue(k: NodeId, a: Action, c: Cell, now: int, t: nat, ch: Choice)
    requires Ready(a, c, now, ch)
    ensures var e := Exec(a, c, now, t, ch);
      Reading(StopDue(k), a) > 0 || k in c.node.hooks ==>
        || ReadProg(StopDue(k), e.push) > 0
        || k in e.cell.node.hooks
        || (a.Stop? && a.n == k && e.cell.node.stopping)
        || (a.Detach? && a.child == k)
  {
    var g := StopDue(k);
    if Stopper(a) {
      StopperOutcome(a, c, now, t, ch);
      StopperReads(g, a, c, now, t, ch);
      var out := StopOutcome(a, c, now);
      ReadWork(g, Target(a), Taken(c.node, out), out.hard, c.node.deferred);
      if a.Stop? { SoftStopDisarms(c.node, a.grace, now); }
    } else if a.Inc? {
      IncEffect(a, c, now);
    } else if a.Hooks? {
      ReadStops(g, a.hooks, ch.order);
    } else {
      LightReads(g, a, c, now, t, ch);
    }
  }

  /** What the armed parts of a cell can still cost. */
  function Potential(c: Cell): nat {
    2 * |c.node.hooks| + (if c.node.armed then 4 + 3 * |c.node.deferred| else 0)
  }

  /** Termination: every action costs more than the work it leads to. */
  lemma ExecCost(a: Action, c: Cell, now: int, t: nat, ch: Choice)
    requires Ready(a, c, now, ch)
    ensures var e := Exec(a, c, now, t, ch);
      Potential(e.cell) + ReadProg(Cost, e.push) + ReadProg(Cost, e.spawn) < Potential(c) + Reading(Cost, a)
  {
    if Stopper(a) {
      StopperCost(a, c, now, t, ch);
    } else if a.Inc? {
      IncEffect(a, c, now);
      IncReads(Cost, a, c, now);
    } else if a.Hooks? {
      ReadStops(Cost, a.hooks, ch.order);
    } else {
      LightCost(a, c, now, t, ch);
    }
  }

  lemma StopperCost(a: Action, c: Cell, now: int, t: nat, ch: Choice)
    requires Ready(a, c, now, ch) && Stopper(a)
    ensures var e := Exec(a, c, now, t, ch);
      Potential(e.cell) + ReadProg(Cost, e.push) < Potential(c) + Reading(Cost, a) && e.spawn == []
  {
    StopperOutcome(a, c, now, t, ch);
    StopperReads(Cost, a, c, now, t, ch);
    var out := StopOutcome(a, c, now);
    ReadWork(Cost, Target(a), Taken(c.node, out), out.hard, c.node.deferred);
  }

  /** What a light action may still add to the potential of its cell. */
  function Bonus(a: Action, c: Cell): nat {
    if a.Attach? && !c.node.stopping then 2
    else if a.Defer? && !DefersNothing(c.node) then 3
    else 0
  }

  lemma LightCost(a: Action, c: Cell, now: int, t: nat, ch: Choice)
    requires Shaped(a) && Allowed(a, ch) && Light(a)
    ensures var e := Exec(a, c, now, t, ch);
      Potential(e.cell) + ReadProg(Cost, e.push) < Potential(c) + Reading(Cost, a) && e.spawn == []
  {
    LightPushCost(a, c, now, t, ch);
    LightPotential(a, c, now, t, ch);
  }

  lemma LightPushCost(a: Action, c: Cell, now: int, t: nat, ch: Choice)
    requires Shaped(a) && Allowed(a, ch) && Light(a)
    ensures ReadProg(Cost, Exec(a, c, now, t, ch).push) + Bonus(a, c) < Reading(Cost, a)
  {
    LightReads(Cost, a, c, now, t, ch);
  }

  lemma LightPotential(a: Action, c: Cell, now: int, t: nat, ch: Choice)
    requires Shaped(a) && Allowed(a, ch) && Light(a)
    ensures var e := Exec(a, c, now, t, ch);
      && e.spawn == []
      && Potential(e.cell) <= Potential(c) + Bonus(a, c)
  {
    LightEffect(a, c, now, t, ch);
    if a.Detach? || a.Attach? { HookPotential(a, c, now, t, ch); }
    else if a.Defer? { DeferPotential(a, c); }
    else { LightArms(a, c, now, t, ch); }
  }

  lemma HookPotential(a: Action, c: Cell, now: int, t: nat, ch: Choice)
    requires a.Detach? || a.Attach?
    ensures Potential(Exec(a, c, now, t, ch).cell) <= Potential(c) + Bonus(a, c)
  {
    HookSizes(c.node.hooks, a.child, if a.Attach? then a.grace else 0);
  }

  lemma DeferPotential(a: Action, c: Cell)
    requires a.Defer?
    ensures Potential(ExecDefer(a, c).cell) <= Potential(c) + Bonus(a, c)
  {
  }

  lemma LightArms(a: Action, c: Cell, now: int, t: nat, ch: Choice)
    requires Shaped(a) && Allowed(a, ch) && Light(a) && !a.Detach? && !a.Attach? && !a.Defer?
    ensures var n, m := c.node, Exec(a, c, now, t, ch).cell.node;
      m.hooks == n.hooks && m.armed == n.armed && m.deferred == n.deferred
  {
  }

  lemma HookSizes(hooks: map<NodeId, int>, child: NodeId, grace: int)
    ensures |hooks - {child}| <= |hooks|
    ensures |hooks[child := grace]| <= |hooks| + 1
  {
    assert (hooks - {child}).Keys <= hooks.Keys;
    SubsetSize((hooks - {child}).Keys, hooks.Keys);
    assert hooks[child := grace].Keys == hooks.Keys + {child};
  }

  lemma SubsetSize(a: set<NodeId>, b: set<NodeId>)
    requires a <= b
    ensures |a| <= |b|
  {
    assert a + (b - a) == b;
  }

  /** Facts that only grow, so that what one action established stays. */
  ghost predicate Grows(c: Cell, d: Cell) {
    && d.node.parent == c.node.parent && d.node.grace == c.node.grace
    && (c.node.stopping ==> d.node.stopping)
    && (d.node.armed ==> c.node.armed)
    && c.hist.timers <= d.hist.timers
  }

  lemma ExecGrows(a: Action, c: Cell, now: int, t: nat, ch: Choice)
    requires Ready(a, c, now, ch)
    ensures var e := Exec(a, c, now, t, ch);
      Grows(c, e.cell) && !e.panicked
  {
    if Stopper(a) {
      StopperOutcome(a, c, now, t, ch);
    } else if a.Inc? {
      IncEffect(a, c, now);
    }
  }

  lemma ExecKeepsCell(a: Action, c: Cell, now: int, t: nat, ch: Choice)
    requires Ready(a, c, now, ch)
    ensures CellOk(Exec(a, c, now, t, ch).cell)
  {
    if a.Stop? {
      SoftStopKeepsCell(a.grace, c, now, t);
    } else if Stopper(a) {
      StopperOutcome(a, c, now, t, ch);
      HardStopKeepsCell(c, StopOutcome(a, c, now), now, t);
    } else if a.Inc? {
      IncEffect(a, c, now);
    } else if !a.Hooks? {
      LightKeepsCell(a, c, now, t, ch);
    }
  }

  /** A soft stop: the stored deadline stays the earliest one asked for. */
  lemma SoftStopKeepsCell(grace: int, c: Cell, now: int, t: nat)
    requires CellOk(c)
    ensures var out := SoftStop(c.node, grace, now);
      CellOk(Cell(out.node, NoteSoft(c.hist, c.node, out, grace, now, t)))
  {
    if !c.node.armed { LateStopKeepsCell(grace, c, now, t); }
    else if c.node.count == 0 { IdleStopKeepsCell(grace, c, now, t); }
    else if grace <= 0 { RushedStopKeepsCell(grace, c, now, t); }
    else { GraceStopKeepsCell(grace, c, now, t); }
  }

  lemma LateStopKeepsCell(grace: int, c: Cell, now: int, t: nat)
    requires CellOk(c) && !c.node.armed
    ensures var out := SoftStop(c.node, grace, now);
      CellOk(Cell(out.node, NoteSoft(c.hist, c.node, out, grace, now, t)))
  {
    SoftStopDisarms(c.node, grace, now);
  }

  lemma IdleStopKeepsCell(grace: int, c: Cell, now: int, t: nat)
    requires CellOk(c) && c.node.armed && c.node.count == 0
    ensures var out := SoftStop(c.node, grace, now);
      CellOk(Cell(out.node, NoteSoft(c.hist, c.node, out, grace, now, t)))
  {
    SoftStopDisarms(c.node, grace, now);
  }

  lemma RushedStopKeepsCell(grace: int, c: Cell, now: int, t: nat)
    requires CellOk(c) && c.node.armed && c.node.count > 0 && grace <= 0
    ensures var out := SoftStop(c.node, grace, now);
      CellOk(Cell(out.node, NoteSoft(c.hist, c.node, out, grace, now, t)))
  {
    SoftStopDisarms(c.node, grace, now);
  }

  lemma GraceStopKeepsCell(grace: int, c: Cell, now: int, t: nat)
    requires CellOk(c) && c.node.armed && c.node.count > 0 && grace > 0
    ensures var out := SoftStop(c.node, grace, now);
      CellOk(Cell(out.node, NoteSoft(c.hist, c.node, out, grace, now, t)))
  {
    SoftStopDisarms(c.node, grace, now);
    EarliestAppend(c.hist.deadlines, now + grace);
    var out := SoftStop(c.node, grace, now);
    assert out.node.stopAt == Earliest(c.hist.deadlines + [now + grace]);
  }

  lemma HardStopKeepsCell(c: Cell, out: Outcome, now: int, t: nat)
    requires CellOk(c) && Lifecycle(out.node) && Disarms(c.node, out)
    requires out.node.count <= c.node.count
    requires out.hard.Some? ==> (out.hard.value == ErrStopped <==> out.node.count == 0)
    requires out.hard == Some(ErrGracePeriodExpired) ==> exists d :: d in c.hist.timers && d <= now
    requires out.hard.None? ==> out.node.stopAt == c.node.stopAt
    ensures CellOk(Cell(out.node, Note(c.hist, out, now, t)))
  {
  }

  lemma LightKeepsCell(a: Action, c: Cell, now: int, t: nat, ch: Choice)
    requires Ready(a, c, now, ch) && Light(a)
    ensures CellOk(Exec(a, c, now, t, ch).cell)
  {
  }
}
