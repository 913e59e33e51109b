/**
  The same protocol with its mutexes.  A thread's program takes the mutex of a node
  before an action that needs it and gives it back right after, so that whatever the
  action leads to comes after the unlock.  A mutex is a resource that any thread may
  hold: nothing in the steps forbids a thread to take a second one.
 */
module StopTreeLocks {
  import opened StateNode
  import opened StopTree
  import opened StopTreeInvariant
  import opened StopTreeRuns
  import opened StopTreeTheorems
  import opened StopTreeTermination

  datatype Instr = Lock(n: NodeId) | Do(a: Action) | Unlock(n: NodeId)

  datatype LockState = LockState(cells: seq<Cell>, progs: seq<seq<Instr>>, now: int, panicked: bool,
                                 holder: map<NodeId, nat>)

  datatype LockLabel =
    | Take(t: nat)
    | Give(t: nat)
    | Perform(t: nat, choice: Choice)
    | Other(l: Label)             // calls, new threads, ticks and timers

  /** The actions that read or write the fields behind the mutex.  The others are user
      code, hooks and cancel functions, and reads of channels and atomic pointers. */
  predicate NeedsLock(a: Action) {
    || a.Check? || a.Inc? || a.Dec? || a.Stop? || a.Idle? || a.Expire? || a.Handle?
    || a.Defer? || a.Report? || a.Attach? || a.Detach? || (a.Returned? && a.result.Some?)
  }

  function Code(a: Action): seq<Instr> {
    if Shaped(a) && NeedsLock(a) then [Lock(Target(a)), Do(a), Unlock(Target(a))] else [Do(a)]
  }

  function CodeAll(prog: seq<Action>): seq<Instr> {
    if prog == [] then [] else Code(prog[0]) + CodeAll(prog[1..])
  }

  /** The actions that a program still has to perform. */
  function Acts(p: seq<Instr>): seq<Action> {
    if p == [] then [] else (if p[0].Do? then [p[0].a] else []) + Acts(p[1..])
  }

  function AllActs(progs: seq<seq<Instr>>): seq<seq<Action>> {
    seq(|progs|, t requires 0 <= t < |progs| => Acts(progs[t]))
  }

  /** Forgetting the mutexes. */
  function Atomic(s: LockState): State {
    State(s.cells, AllActs(s.progs), s.now, s.panicked)
  }

  function LockInit(now: int): LockState {
    LockState([], [], now, false, map[])
  }

  /** What follows an action: first the unlock that is due, then the work it leads to. */
  function Follow(rest: seq<Instr>, push: seq<Action>): seq<Instr> {
    if rest != [] && rest[0].Unlock? then [rest[0]] + (CodeAll(push) + rest[1..])
    else CodeAll(push) + rest
  }

  predicate UserCode(p: seq<Instr>) {
    p == [] || (p[0].Do? && InUserCode([p[0].a]))
  }

  predicate HasWork(s: LockState, t: nat) {
    t < |s.progs| && s.progs[t] != []
  }

  ghost predicate Can(s: LockState, l: LockLabel) {
    match l
    case Take(t) => HasWork(s, t) && s.progs[t][0].Lock? && s.progs[t][0].n !in s.holder
    case Give(t) => HasWork(s, t) && s.progs[t][0].Unlock?
    case Perform(t, ch) =>
      && HasWork(s, t) && s.progs[t][0].Do?
      && var a := s.progs[t][0].a;
         Shaped(a) && Target(a) < |s.cells| && Allowed(a, ch)
    case Other(m) =>
      match m
      case CallApi(t, api) => t < |s.progs| && UserCode(s.progs[t]) && ApiTargets(Atomic(s), api)
      case Fire(n, d) => n < |s.cells| && d in s.cells[n].hist.timers && d <= s.now
      case Tick(later) => s.now <= later
      case NewThread => true
      case Run(_, _) => false
  }

  function DoPerform(s: LockState, t: nat, ch: Choice): LockState
    requires Can(s, Perform(t, ch))
  {
    var a := s.progs[t][0].a;
    var e := Exec(a, s.cells[Target(a)], s.now, t, ch);
    var progs := s.progs[t := Follow(s.progs[t][1..], e.push)];
    s.(cells := s.cells[Target(a) := e.cell],
       progs := if e.spawn == [] then progs else progs + [CodeAll(e.spawn)],
       panicked := s.panicked || e.panicked)
  }

  function DoOther(s: LockState, m: Label): LockState
    requires ParentsBelow(s.cells) && Can(s, Other(m))
  {
    match m
    case CallApi(t, api) =>
      s.(cells := ApiCells(Atomic(s), api),
         progs := s.progs[t := CodeAll(ApiActions(Atomic(s), api)) + s.progs[t]])
    case NewThread => s.(progs := s.progs + [[]])
    case Tick(later) => s.(now := later)
    case Fire(n, d) => s.(progs := s.progs + [CodeAll([Expire(n, d)])])
  }

  function LockStep(s: LockState, l: LockLabel): LockState
    requires ParentsBelow(s.cells) && Can(s, l)
  {
    match l
    case Take(t) =>
      s.(holder := s.holder[s.progs[t][0].n := t], progs := s.progs[t := s.progs[t][1..]])
    case Give(t) =>
      s.(holder := s.holder - {s.progs[t][0].n}, progs := s.progs[t := s.progs[t][1..]])
    case Perform(t, ch) => DoPerform(s, t, ch)
    case Other(m) => DoOther(s, m)
  }

  // Refinement.

  lemma {:induction false} ActsConcat(p: seq<Instr>, q: seq<Instr>)
    ensures Acts(p + q) == Acts(p) + Acts(q)
  {
    if p == [] {
      assert p + q == q;
    } else {
      assert (p + q)[0] == p[0] && (p + q)[1..] == p[1..] + q;
      ActsConcat(p[1..], q);
      Regroup(if p[0].Do? then [p[0].a] else [], Acts(p[1..]), Acts(q));
    }
  }

  lemma Regroup(x: seq<Action>, y: seq<Action>, z: seq<Action>)
    ensures x + (y + z) == (x + y) + z
  {
  }

  lemma {:induction false} ActsCode(prog: seq<Action>)
    ensures Acts(CodeAll(prog)) == prog
  {
    if prog != [] {
      ActsCode(prog[1..]);
      ActsConcat(Code(prog[0]), CodeAll(prog[1..]));
      ActsOne(prog[0]);
    }
  }

  lemma ActsOne(a: Action)
    ensures Acts(Code(a)) == [a]
  {
    if Shaped(a) && NeedsLock(a) {
      var n := Target(a);
      assert Code(a) == [Lock(n)] + [Do(a)] + [Unlock(n)];
      ActsConcat([Lock(n)] + [Do(a)], [Unlock(n)]);
      ActsConcat([Lock(n)], [Do(a)]);
    }
  }

  lemma ActsFollow(rest: seq<Instr>, push: seq<Action>)
    ensures Acts(Follow(rest, push)) == push + Acts(rest)
  {
    ActsCode(push);
    if rest != [] && rest[0].Unlock? {
      ActsUnlock(rest[0], CodeAll(push) + rest[1..]);
      ActsConcat(CodeAll(push), rest[1..]);
      ActsHead(rest);
    } else {
      ActsConcat(CodeAll(push), rest);
    }
  }

  lemma ActsUnlock(i: Instr, p: seq<Instr>)
    requires i.Unlock?
    ensures Acts([i] + p) == Acts(p)
  {
    assert ([i] + p)[1..] == p;
  }

  lemma ActsHead(p: seq<Instr>)
    requires p != []
    ensures p[0].Do? ==> Acts(p) != [] && Acts(p)[0] == p[0].a && Acts(p)[1..] == Acts(p[1..])
    ensures !p[0].Do? ==> Acts(p) == Acts(p[1..])
  {
  }

  lemma AllActsUpdate(progs: seq<seq<Instr>>, t: nat, p: seq<Instr>)
    requires t < |progs|
    ensures AllActs(progs[t := p]) == AllActs(progs)[t := Acts(p)]
    ensures AllActs(progs + [p]) == AllActs(progs) + [Acts(p)]
  {
  }

  /** Performing an action is a step of the system without mutexes. */
  lemma PerformRefines(s: LockState, t: nat, ch: Choice)
    requires Can(s, Perform(t, ch))
    ensures Enabled(Atomic(s), Run(t, ch))
    ensures Atomic(DoPerform(s, t, ch)) == StepRun(Atomic(s), t, ch)
  {
    var p := s.progs[t];
    ActsHead(p);
    var a := p[0].a;
    var e := Exec(a, s.cells[Target(a)], s.now, t, ch);
    ActsFollow(p[1..], e.push);
    ActsCode(e.spawn);
    var progs := s.progs[t := Follow(p[1..], e.push)];
    AllActsUpdate(s.progs, t, Follow(p[1..], e.push));
    AllActsUpdate(progs, t, CodeAll(e.spawn));
  }

  lemma OtherRefines(s: LockState, m: Label)
    requires ParentsBelow(s.cells) && Can(s, Other(m))
    ensures Enabled(Atomic(s), m) && Atomic(DoOther(s, m)) == Step(Atomic(s), m)
  {
    match m
    case CallApi(t, api) =>
      var acts := ApiActions(Atomic(s), api);
      if s.progs[t] != [] { ActsHead(s.progs[t]); }
      ActsCode(acts);
      ActsConcat(CodeAll(acts), s.progs[t]);
      AllActsUpdate(s.progs, t, CodeAll(acts) + s.progs[t]);
    case NewThread =>
      assert AllActs(s.progs + [[]]) == AllActs(s.progs) + [[]];
    case Fire(n, d) =>
      ActsCode([Expire(n, d)]);
      assert AllActs(s.progs + [CodeAll([Expire(n, d)])]) == AllActs(s.progs) + [[Expire(n, d)]];
    case Tick(_) =>
  }

  ghost predicate IsLockRun(s: LockState, ls: seq<LockLabel>, u: LockState)
    decreases |ls|
  {
    if ls == [] then s == u
    else ParentsBelow(s.cells) && Can(s, ls[0]) && IsLockRun(LockStep(s, ls[0]), ls[1..], u)
  }

  ghost predicate LockReachable(s: LockState) {
    exists now, ls :: IsLockRun(LockInit(now), ls, s)
  }

  /** The label that a step has without mutexes; taking and giving them is not seen. */
  function Seen(ls: seq<LockLabel>): seq<Label> {
    if ls == [] then []
    else
      (match ls[0]
       case Perform(t, ch) => [Run(t, ch)]
       case Other(m) => [m]
       case _ => [])
      + Seen(ls[1..])
  }

  lemma StepRefines(s: LockState, l: LockLabel)
    requires ParentsBelow(s.cells) && Can(s, l)
    ensures l.Take? || l.Give? ==> Atomic(LockStep(s, l)) == Atomic(s)
    ensures l.Perform? ==>
      Enabled(Atomic(s), Run(l.t, l.choice)) && Atomic(LockStep(s, l)) == Step(Atomic(s), Run(l.t, l.choice))
    ensures l.Other? ==> Enabled(Atomic(s), l.l) && Atomic(LockStep(s, l)) == Step(Atomic(s), l.l)
  {
    match l
    case Perform(t, ch) => PerformRefines(s, t, ch);
    case Other(m) => OtherRefines(s, m);
    case _ =>
      ActsHead(s.progs[l.t]);
      AllActsUpdate(s.progs, l.t, s.progs[l.t][1..]);
      assert AllActs(s.progs)[l.t := Acts(s.progs[l.t])] == AllActs(s.progs);
  }

  /** Every run with mutexes is a run without them: a critical section may be taken as one
      step, and all results about reachable states hold of the locked program. */
  lemma {:induction false} LocksRefine(s: LockState, ls: seq<LockLabel>, u: LockState)
    requires IsLockRun(s, ls, u)
    ensures IsRun(Atomic(s), Seen(ls), Atomic(u))
    decreases |ls|
  {
    if ls != [] {
      var v := LockStep(s, ls[0]);
      StepRefines(s, ls[0]);
      LocksRefine(v, ls[1..], u);
      var rest := Seen(ls[1..]);
      match ls[0]
      case Perform(t, ch) => RunCons(Atomic(s), Run(t, ch), rest, Atomic(u));
      case Other(m) => RunCons(Atomic(s), m, rest, Atomic(u));
      case _ => assert Seen(ls) == rest;
    }
  }

  lemma LockReachableIsReachable(s: LockState)
    requires LockReachable(s)
    ensures Reachable(Atomic(s))
  {
    var now, ls :| IsLockRun(LockInit(now), ls, s);
    LocksRefine(LockInit(now), ls, s);
    assert Atomic(LockInit(now)) == Init(now);
  }

  // Lock discipline.

  /** Thread t holds the mutex of n. */
  ghost predicate Owns(h: map<NodeId, nat>, t: nat, n: NodeId) {
    n in h && h[n] == t
  }

  ghost predicate OwnsNone(h: map<NodeId, nat>, t: nat) {
    forall n :: !Owns(h, t, n)
  }

  ghost predicate OwnsOnly(h: map<NodeId, nat>, t: nat, n: NodeId) {
    forall m :: Owns(h, t, m) <==> m == n
  }

  /** A program between two sections: every action that needs a mutex is about to take it. */
  ghost predicate Outside(p: seq<Instr>) {
    exists prog :: p == CodeAll(prog)
  }

  /** A program within a section of n. */
  ghost predicate Inside(p: seq<Instr>, n: NodeId) {
    || (|p| >= 2 && p[0].Do? && Shaped(p[0].a) && NeedsLock(p[0].a) && Target(p[0].a) == n
        && p[1] == Unlock(n) && Outside(p[2..]))
    || (p != [] && p[0] == Unlock(n) && Outside(p[1..]))
  }

  ghost predicate Disciplined(p: seq<Instr>, h: map<NodeId, nat>, t: nat) {
    || (Outside(p) && OwnsNone(h, t))
    || (exists n :: Inside(p, n) && OwnsOnly(h, t, n))
  }

  ghost predicate Discipline(s: LockState) {
    && (forall t :: 0 <= t < |s.progs| ==> Disciplined(s.progs[t], s.holder, t))
    && (forall n :: n in s.holder ==> s.holder[n] < |s.progs|)
  }

  lemma {:induction false} CodeConcat(p: seq<Action>, q: seq<Action>)
    ensures CodeAll(p + q) == CodeAll(p) + CodeAll(q)
  {
    if p == [] {
      assert p + q == q;
    } else {
      assert (p + q)[1..] == p[1..] + q;
      CodeConcat(p[1..], q);
    }
  }

  lemma OutsidePrepend(prog: seq<Action>, p: seq<Instr>)
    requires Outside(p)
    ensures Outside(CodeAll(prog) + p)
  {
    var q :| p == CodeAll(q);
    CodeConcat(prog, q);
  }

  /** How a program between two sections begins. */
  lemma OutsideHead(p: seq<Instr>)
    requires Outside(p) && p != []
    ensures p[0].Lock? ==> Inside(p[1..], p[0].n)
    ensures p[0].Do? ==> !(Shaped(p[0].a) && NeedsLock(p[0].a)) && Outside(p[1..])
    ensures !p[0].Unlock?
  {
    var prog :| p == CodeAll(prog);
    var tail := CodeAll(prog[1..]);
    assert p == Code(prog[0]) + tail;
    if p[0].Lock? {
      assert p[1..][2..] == tail;
    } else {
      assert p[1..] == tail;
    }
  }

  /** A thread does not notice what others do to the mutexes that it does not hold. */
  lemma OtherOwners(p: seq<Instr>, h: map<NodeId, nat>, k: map<NodeId, nat>, r: nat)
    requires Disciplined(p, h, r) && forall n :: Owns(k, r, n) <==> Owns(h, r, n)
    ensures Disciplined(p, k, r)
  {
    if OwnsNone(h, r) {
      assert OwnsNone(k, r);
    } else {
      var n :| Inside(p, n) && OwnsOnly(h, r, n);
      assert OwnsOnly(k, r, n);
    }
  }

  lemma TakeKeeps(s: LockState, t: nat)
    requires Discipline(s) && Can(s, Take(t)) && ParentsBelow(s.cells)
    ensures Discipline(LockStep(s, Take(t)))
  {
    var u := LockStep(s, Take(t));
    var n := s.progs[t][0].n;
    assert Disciplined(s.progs[t], s.holder, t);
    OutsideHead(s.progs[t]);
    forall r | 0 <= r < |u.progs| ensures Disciplined(u.progs[r], u.holder, r) {
      assert Disciplined(s.progs[r], s.holder, r);
      if r == t {
        assert forall m :: !Owns(s.holder, t, m);
        TakeOwns(s.holder, t, n);
        assert Inside(u.progs[t], n);
      } else {
        OtherOwners(s.progs[r], s.holder, u.holder, r);
      }
    }
  }

  lemma TakeOwns(h: map<NodeId, nat>, t: nat, n: NodeId)
    requires OwnsNone(h, t) && n !in h
    ensures OwnsOnly(h[n := t], t, n)
  {
    var k := h[n := t];
    forall m ensures Owns(k, t, m) <==> m == n { assert !Owns(h, t, m); }
  }

  lemma GiveOwns(h: map<NodeId, nat>, t: nat, n: NodeId)
    requires OwnsOnly(h, t, n)
    ensures OwnsNone(h - {n}, t)
  {
    var k := h - {n};
    forall m ensures !Owns(k, t, m) { assert Owns(h, t, m) <==> m == n; }
  }

  lemma GiveKeeps(s: LockState, t: nat)
    requires Discipline(s) && Can(s, Give(t)) && ParentsBelow(s.cells)
    ensures Owns(s.holder, t, s.progs[t][0].n)
    ensures Discipline(LockStep(s, Give(t)))
  {
    var u := LockStep(s, Give(t));
    var n := s.progs[t][0].n;
    assert Disciplined(s.progs[t], s.holder, t);
    if Outside(s.progs[t]) { OutsideHead(s.progs[t]); }
    assert Inside(s.progs[t], n) && OwnsOnly(s.holder, t, n);
    assert Owns(s.holder, t, n);
    GiveOwns(s.holder, t, n);
    forall r | 0 <= r < |u.progs| ensures Disciplined(u.progs[r], u.holder, r) {
      assert Disciplined(s.progs[r], s.holder, r);
      if r != t { OtherOwners(s.progs[r], s.holder, u.holder, r); }
    }
  }

  lemma PerformShape(p: seq<Instr>, push: seq<Action>, n: NodeId)
    requires p != [] && p[0].Do?
    ensures Outside(p) ==> Outside(Follow(p[1..], push))
    ensures Inside(p, n) ==> Inside(Follow(p[1..], push), n)
  {
    if Outside(p) {
      OutsideHead(p);
      if p[1..] != [] { OutsideHead(p[1..]); }
      OutsidePrepend(push, p[1..]);
    }
    if Inside(p, n) {
      OutsidePrepend(push, p[2..]);
      assert p[1..][1..] == p[2..];
      var q := Follow(p[1..], push);
      assert q[1..] == CodeAll(push) + p[2..];
    }
  }

  lemma PerformKeeps(s: LockState, t: nat, ch: Choice)
    requires Discipline(s) && Can(s, Perform(t, ch))
    ensures Discipline(DoPerform(s, t, ch))
  {
    var u := DoPerform(s, t, ch);
    var a := s.progs[t][0].a;
    var e := Exec(a, s.cells[Target(a)], s.now, t, ch);
    NewOwners(s);
    FollowKeeps(s.progs[t], e.push, s.holder, t);
    assert Outside(CodeAll(e.spawn));
  }

  lemma FollowKeeps(p: seq<Instr>, push: seq<Action>, h: map<NodeId, nat>, t: nat)
    requires p != [] && p[0].Do? && Disciplined(p, h, t)
    ensures Disciplined(Follow(p[1..], push), h, t)
  {
    if Outside(p) && OwnsNone(h, t) {
      PerformShape(p, push, 0);
    } else {
      var n :| Inside(p, n) && OwnsOnly(h, t, n);
      PerformShape(p, push, n);
    }
  }

  lemma NewOwners(s: LockState)
    requires Discipline(s)
    ensures OwnsNone(s.holder, |s.progs|)
  {
  }

  lemma OtherKeeps(s: LockState, m: Label)
    requires Discipline(s) && ParentsBelow(s.cells) && Can(s, Other(m))
    ensures Discipline(DoOther(s, m))
  {
    NewOwners(s);
    assert [] == CodeAll([]);
    match m
    case CallApi(t, api) =>
      assert Disciplined(s.progs[t], s.holder, t);
      CallShape(s.progs[t], s.holder, t);
      OutsidePrepend(ApiActions(Atomic(s), api), s.progs[t]);
    case _ =>
  }

  /** User code runs outside all sections, so a call starts there. */
  lemma CallShape(p: seq<Instr>, h: map<NodeId, nat>, t: nat)
    requires Disciplined(p, h, t) && UserCode(p)
    ensures Outside(p) && OwnsNone(h, t)
  {
  }

  lemma {:induction false} RunKeepsDiscipline(s: LockState, ls: seq<LockLabel>, u: LockState)
    requires Discipline(s) && IsLockRun(s, ls, u)
    ensures Discipline(u)
    decreases |ls|
  {
    if ls != [] {
      match ls[0] {
        case Take(t) => TakeKeeps(s, t);
        case Give(t) => GiveKeeps(s, t);
        case Perform(t, ch) => PerformKeeps(s, t, ch);
        case Other(m) => OtherKeeps(s, m);
      }
      RunKeepsDiscipline(LockStep(s, ls[0]), ls[1..], u);
    }
  }

  lemma ReachableDiscipline(s: LockState)
    requires LockReachable(s)
    ensures Discipline(s) && Inv(Atomic(s))
  {
    var now, ls :| IsLockRun(LockInit(now), ls, s);
    RunKeepsDiscipline(LockInit(now), ls, s);
    LockReachableIsReachable(s);
    ReachableInv(Atomic(s));
  }

  // The results.

  /** No thread ever holds two mutexes, and a thread that holds one is about to perform its
      section or to unlock: it never asks for another. */
  lemma OneMutex(s: LockState, t: nat, n: NodeId, m: NodeId)
    requires LockReachable(s) && t < |s.progs| && Owns(s.holder, t, n) && Owns(s.holder, t, m)
    ensures n == m && s.progs[t] != [] && !s.progs[t][0].Lock?
    ensures s.progs[t][0].Unlock? ==> s.progs[t][0].n == n
    ensures s.progs[t][0].Do? ==>
      var a := s.progs[t][0].a; Shaped(a) && NeedsLock(a) && Target(a) == n
  {
    ReachableDiscipline(s);
    assert Disciplined(s.progs[t], s.holder, t);
  }

  /** Tasks, callbacks, hooks and cancel functions run with no mutex held. */
  lemma UserCodeHoldsNothing(s: LockState, t: nat, n: NodeId)
    requires LockReachable(s) && t < |s.progs| && s.progs[t] != [] && s.progs[t][0].Do?
    requires var a := s.progs[t][0].a;
      a.Body? || a.Due? || a.Running? || a.RunNow? || a.Hooks? || a.Cancel? || a.CancelCtx?
    ensures !Owns(s.holder, t, n)
  {
    ReachableDiscipline(s);
    assert Disciplined(s.progs[t], s.holder, t);
  }

  /** Mutual exclusion: an action that reads or writes the fields of a node runs while its
      thread holds that node's mutex, and only such actions change the node. */
  lemma SectionsAreLocked(s: LockState, t: nat, ch: Choice)
    requires LockReachable(s) && Can(s, Perform(t, ch))
    ensures var a := s.progs[t][0].a;
      && (NeedsLock(a) ==> Owns(s.holder, t, Target(a)))
      && (!NeedsLock(a) ==> DoPerform(s, t, ch).cells[Target(a)].node == s.cells[Target(a)].node)
  {
    ReachableDiscipline(s);
    assert Disciplined(s.progs[t], s.holder, t);
    if Outside(s.progs[t]) { OutsideHead(s.progs[t]); }
    FreeActions(s.progs[t][0].a, s.cells[Target(s.progs[t][0].a)], s.now, t, ch);
  }

  /** Reads too: what an action without the mutex leads to depends on the node at most by its
      parent, which never changes, and, for the one that polls it, by the stopping channel. */
  lemma FreeActionsReadNothing(a: Action, c: Cell, d: Node, now: int, t: nat, ch: Choice)
    requires Shaped(a) && Allowed(a, ch) && !NeedsLock(a)
    requires d.parent == c.node.parent && (a.DetachCheck? ==> d.stopping == c.node.stopping)
    ensures var e, f := Exec(a, c, now, t, ch), Exec(a, Cell(d, c.hist), now, t, ch);
      e.push == f.push && e.spawn == f.spawn && e.cell.hist == f.cell.hist && e.panicked == f.panicked
  {
  }

  lemma FreeActions(a: Action, c: Cell, now: int, t: nat, ch: Choice)
    requires Shaped(a) && Allowed(a, ch)
    ensures !NeedsLock(a) ==> Exec(a, c, now, t, ch).cell.node == c.node
  {
  }

  ghost predicate Moves(s: LockState, t: nat) {
    exists l: LockLabel :: !l.Other? && l.t == t && Can(s, l)
  }

  lemma DoMoves(s: LockState, t: nat)
    requires Inv(Atomic(s)) && t < |s.progs| && s.progs[t] != [] && s.progs[t][0].Do?
    ensures Moves(s, t)
  {
    ActsHead(s.progs[t]);
    assert Atomic(s).threads[t] == Acts(s.progs[t]);
    NeverBlocked(Atomic(s), t);
    var ch :| Enabled(Atomic(s), Run(t, ch));
    assert Can(s, Perform(t, ch)) && Perform(t, ch).t == t;
  }

  /** There is no wait cycle: a thread with work left can take its next step, or it waits
      for one mutex whose holder is another thread that can take its next step. */
  lemma WaitsAreShort(s: LockState, t: nat)
    requires LockReachable(s) && t < |s.progs| && s.progs[t] != []
    ensures Moves(s, t) || (
      && s.progs[t][0].Lock? && s.progs[t][0].n in s.holder
      && s.holder[s.progs[t][0].n] != t && Moves(s, s.holder[s.progs[t][0].n]))
  {
    ReachableDiscipline(s);
    var i := s.progs[t][0];
    if i.Do? {
      DoMoves(s, t);
    } else if i.Unlock? {
      assert Can(s, Give(t)) && Give(t).t == t;
    } else if i.n !in s.holder {
      assert Can(s, Take(t)) && Take(t).t == t;
    } else {
      HolderMoves(s, i.n);
      assert Disciplined(s.progs[t], s.holder, t);
    }
  }

  lemma HolderMoves(s: LockState, n: NodeId)
    requires LockReachable(s) && n in s.holder
    ensures s.holder[n] < |s.progs| && Moves(s, s.holder[n])
  {
    ReachableDiscipline(s);
    var t := s.holder[n];
    OneMutex(s, t, n, n);
    if s.progs[t][0].Do? { DoMoves(s, t); }
    else { assert Can(s, Give(t)) && Give(t).t == t; }
  }

  // Termination.

  function Locks(p: seq<Instr>): nat {
    if p == [] then 0 else (if p[0].Do? then 0 else 1) + Locks(p[1..])
  }

  function AllLocks(progs: seq<seq<Instr>>): nat {
    if progs == [] then 0 else AllLocks(progs[..|progs| - 1]) + Locks(progs[|progs| - 1])
  }

  lemma {:induction false} LocksDrop(progs: seq<seq<Instr>>, t: nat)
    requires t < |progs| && progs[t] != [] && !progs[t][0].Do?
    ensures AllLocks(progs[t := progs[t][1..]]) == AllLocks(progs) - 1
  {
    var last := |progs| - 1;
    var q := progs[t := progs[t][1..]];
    if t == last {
      assert q[..last] == progs[..last];
    } else {
      assert q[..last] == progs[..last][t := progs[..last][t][1..]];
      LocksDrop(progs[..last], t);
    }
  }

  /** With user code making no further calls every step of a thread takes the pair of the
      atomic cost and the mutex operations still to come down lexicographically. */
  lemma LockedStepsEnd(s: LockState, l: LockLabel)
    requires LockReachable(s) && ParentsBelow(s.cells) && Can(s, l) && !l.Other?
    ensures var u := LockStep(s, l);
      || TotalCost(Atomic(u)) < TotalCost(Atomic(s))
      || (TotalCost(Atomic(u)) == TotalCost(Atomic(s)) && AllLocks(u.progs) < AllLocks(s.progs))
  {
    ReachableDiscipline(s);
    StepRefines(s, l);
    if l.Perform? { RunCostsSomething(Atomic(s), l.t, l.choice); }
    else { LocksDrop(s.progs, l.t); }
  }
}
