/**
  Quantities that a whole configuration of threads adds up to, and how one action
  changes them.  A gauge reads a number off every pending action.
 */
module StopTreeGauges {
  import opened Options
  import opened StateNode
  import opened StopTree

  datatype Gauge =
    | Holds(n: NodeId)                // increments of n not yet undone
    | Live(n: NodeId)                 // tasks running at n or below
    | Owes(n: NodeId, e: Error)       // errors received for n and not yet recorded
    | StopDue(n: NodeId)              // pending work that will stop n
    | Cost                            // a bound on the steps still to come

  function Reading(g: Gauge, a: Action): nat {
    match g
    case Holds(n) =>
      (match a
       case Inc(done, _, _) => multiset(done)[n]
       case Body(path, _) => multiset(path)[n]
       case Handle(path, _, _) => multiset(path)[n]
       case Dec(todo) => multiset(todo)[n]
       case _ => 0)
    case Live(n) => if a.Body? && n in a.path then 1 else 0
    case Owes(n, e) =>
      (match a
       case Handle(path, err, _) => if path != [] && path[|path| - 1] == n && err == e then 1 else 0
       case Returned(m, _, result) => if m == n && result == Some(e) then 1 else 0
       case _ => 0)
    case StopDue(n) =>
      (match a
       case Stop(m, _) => if m == n then 1 else 0
       case Attach(_, m, _) => if m == n then 1 else 0
       case Hooks(_, hooks) => if n in hooks then 1 else 0
       case _ => 0)
    case Cost =>
      (match a
       case Check(k, path, _) => k + 2 * |path| + 4
       case Inc(done, todo, _) => |done| + 2 * |todo| + 4
       case Body(path, _) => |path| + 3
       case Handle(path, _, _) => |path| + 2
       case Dec(todo) => |todo|
       case Hooks(_, hooks) => 1 + |hooks|
       case Due(_, _) => 3
       case Running(_, _) => 2
       case Cancel(_, _) => 4
       case DetachCheck(_, _) => 2
       case Defer(_, _) => 4
       case RunNow(_) => 2
       case Attach(_, _, _) => 3
       case _ => 1)
  }

  function ReadProg(g: Gauge, prog: seq<Action>): nat {
    if prog == [] then 0 else Reading(g, prog[0]) + ReadProg(g, prog[1..])
  }

  function ReadAll(g: Gauge, threads: seq<seq<Action>>): nat {
    if threads == [] then 0
    else ReadAll(g, threads[..|threads| - 1]) + ReadProg(g, threads[|threads| - 1])
  }

  lemma {:induction false} ReadConcat(g: Gauge, p: seq<Action>, q: seq<Action>)
    ensures ReadProg(g, p + q) == ReadProg(g, p) + ReadProg(g, q)
  {
    if p == [] {
      assert p + q == q;
    } else {
      assert (p + q)[1..] == p[1..] + q;
      ReadConcat(g, p[1..], q);
    }
  }

  lemma {:induction false} ReadUpdate(g: Gauge, threads: seq<seq<Action>>, t: nat, prog: seq<Action>)
    requires t < |threads|
    ensures ReadAll(g, threads[t := prog]) == ReadAll(g, threads) - ReadProg(g, threads[t]) + ReadProg(g, prog)
  {
    var last := |threads| - 1;
    if t == last {
      assert threads[t := prog][..last] == threads[..last];
    } else {
      assert threads[t := prog][..last] == threads[..last][t := prog];
      ReadUpdate(g, threads[..last], t, prog);
    }
  }

  lemma ReadAppend(g: Gauge, threads: seq<seq<Action>>, prog: seq<Action>)
    ensures ReadAll(g, threads + [prog]) == ReadAll(g, threads) + ReadProg(g, prog)
  {
    assert (threads + [prog])[..|threads|] == threads;
  }

  lemma {:induction false} ReadMember(g: Gauge, prog: seq<Action>, a: Action)
    requires a in prog
    ensures Reading(g, a) <= ReadProg(g, prog)
  {
    if prog[0] != a { ReadMember(g, prog[1..], a); }
  }

  lemma {:induction false} ReadThread(g: Gauge, threads: seq<seq<Action>>, t: nat)
    requires t < |threads|
    ensures ReadProg(g, threads[t]) <= ReadAll(g, threads)
  {
    if t < |threads| - 1 { ReadThread(g, threads[..|threads| - 1], t); }
  }

  /** How a step moves a gauge: the pushed and spawned work replaces the action. */
  lemma ReadStep(g: Gauge, s: State, t: nat, ch: Choice)
    requires Enabled(s, Run(t, ch))
    ensures var a := s.threads[t][0];
      var e := Exec(a, s.cells[Target(a)], s.now, t, ch);
      ReadAll(g, StepRun(s, t, ch).threads)
      == ReadAll(g, s.threads) - Reading(g, a) + ReadProg(g, e.push) + ReadProg(g, e.spawn)
  {
    var a := s.threads[t][0];
    var e := Exec(a, s.cells[Target(a)], s.now, t, ch);
    var rest := s.threads[t][1..];
    ReadConcat(g, e.push, rest);
    ReadUpdate(g, s.threads, t, e.push + rest);
    ReadAppend(g, s.threads[t := e.push + rest], e.spawn);
  }

  // The work that a stopping section leaves.

  /** The callbacks of a node, last accepted first. */
  function Dues(n: NodeId, cbs: seq<Callback>): seq<Action> {
    if cbs == [] then [] else Dues(n, cbs[1..]) + [Due(n, cbs[0])]
  }

  function HookWork(n: NodeId, hooks: map<NodeId, int>): seq<Action> {
    if |hooks| > 0 then [Hooks(n, hooks)] else []
  }

  function HardWork(n: NodeId, hard: Option<Cause>, cbs: seq<Callback>): seq<Action> {
    if hard.Some? then Dues(n, cbs) + [Cancel(n, hard.value)] else []
  }

  lemma BackwardsStep(n: NodeId, jobs: seq<Job>)
    requires jobs != []
    ensures Backwards(n, jobs) == Backwards(n, jobs[1..]) + JobAction(n, jobs[0])
  {
    var all := Reversed(jobs);
    assert all[..|all| - 1] == Reversed(jobs[1..]);
  }

  lemma {:induction false} BackwardsConcat(n: NodeId, p: seq<Job>, q: seq<Job>)
    ensures Backwards(n, p + q) == Backwards(n, q) + Backwards(n, p)
  {
    if p == [] {
      assert p + q == q;
    } else {
      assert (p + q)[1..] == p[1..] + q;
      BackwardsConcat(n, p[1..], q);
      BackwardsStep(n, p);
      BackwardsStep(n, p + q);
    }
  }

  lemma {:induction false} BackwardsCallbacks(n: NodeId, cbs: seq<Callback>)
    ensures Backwards(n, CallbackJobs(cbs)) == Dues(n, cbs)
  {
    if cbs != [] {
      assert CallbackJobs(cbs)[1..] == CallbackJobs(cbs[1..]);
      BackwardsCallbacks(n, cbs[1..]);
      BackwardsStep(n, CallbackJobs(cbs));
    }
  }

  lemma BackwardsOne(n: NodeId, job: Job)
    ensures Backwards(n, [job]) == JobAction(n, job)
  {
    BackwardsStep(n, [job]);
    assert Backwards(n, []) == [];
  }

  lemma HardBackwards(n: NodeId, cause: Cause, cbs: seq<Callback>)
    ensures Backwards(n, [RunCancel(cause)] + CallbackJobs(cbs)) == Dues(n, cbs) + [Cancel(n, cause)]
  {
    BackwardsConcat(n, [RunCancel(cause)], CallbackJobs(cbs));
    BackwardsCallbacks(n, cbs);
    BackwardsOne(n, RunCancel(cause));
  }

  lemma HookBackwards(n: NodeId, hooks: map<NodeId, int>)
    ensures Backwards(n, HookJobs(hooks)) == HookWork(n, hooks)
  {
    if |hooks| > 0 { BackwardsOne(n, RunHooks(hooks)); }
  }

  /** One call can both propagate and hard-stop; then the callbacks run first, last
      accepted first, next the cancel, and the child hooks last. */
  lemma WorkOrder(n: NodeId, hooks: map<NodeId, int>, hard: Option<Cause>, cbs: seq<Callback>)
    ensures Backwards(n, Jobs(hooks, hard, cbs)) == HardWork(n, hard, cbs) + HookWork(n, hooks)
  {
    HookBackwards(n, hooks);
    match hard
    case None =>
      assert HookJobs(hooks) + [] == HookJobs(hooks);
    case Some(cause) =>
      BackwardsConcat(n, HookJobs(hooks), [RunCancel(cause)] + CallbackJobs(cbs));
      HardBackwards(n, cause, cbs);
  }

  lemma {:induction false} ReadDues(g: Gauge, n: NodeId, cbs: seq<Callback>)
    ensures ReadProg(g, Dues(n, cbs)) == if g.Cost? then 3 * |cbs| else 0
  {
    if cbs != [] {
      ReadDues(g, n, cbs[1..]);
      ReadConcat(g, Dues(n, cbs[1..]), [Due(n, cbs[0])]);
      ReadOne(g, Due(n, cbs[0]));
    }
  }

  lemma ReadOne(g: Gauge, a: Action)
    ensures ReadProg(g, [a]) == Reading(g, a)
  {
    assert [a][1..] == [];
  }

  /** The gauges of the work a stopping section leaves: it holds nothing and owes
      nothing, and it will stop exactly the children whose hooks it disarmed. */
  lemma ReadWork(g: Gauge, n: NodeId, hooks: map<NodeId, int>, hard: Option<Cause>, cbs: seq<Callback>)
    ensures var r := ReadProg(g, Backwards(n, Jobs(hooks, hard, cbs)));
      match g
      case StopDue(c) => (r > 0 <==> c in hooks)
      case Cost => r <= 2 * |hooks| + (if hard.Some? then 4 + 3 * |cbs| else 0)
      case _ => r == 0
  {
    WorkOrder(n, hooks, hard, cbs);
    ReadConcat(g, HardWork(n, hard, cbs), HookWork(n, hooks));
    if hard.Some? {
      ReadDues(g, n, cbs);
      ReadConcat(g, Dues(n, cbs), [Cancel(n, hard.value)]);
      ReadOne(g, Cancel(n, hard.value));
    }
    ReadOne(g, Hooks(n, hooks));
    if |hooks| == 0 { assert hooks == map[]; }
  }

  lemma {:induction false} ReadStops(g: Gauge, hooks: map<NodeId, int>, order: seq<NodeId>)
    requires forall c :: c in order ==> c in hooks
    ensures var r := ReadProg(g, Stops(hooks, order));
      match g
      case StopDue(c) => (r > 0 <==> c in order)
      case Cost => r == |order|
      case _ => r == 0
  {
    if order != [] {
      assert Stops(hooks, order)[1..] == Stops(hooks, order[1..]);
      ReadStops(g, hooks, order[1..]);
    }
  }
}
