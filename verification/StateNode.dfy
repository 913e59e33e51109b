/**
  The critical sections of one `State` (internal/state/state.go), as functions
  on the value that its mutex protects.  A section never runs callbacks itself:
  it hands back a list of jobs, which the caller runs after unlocking.
 */
module StateNode {
  import opened Options

  datatype Cause = ErrStopped | ErrGracePeriodExpired

  type NodeId = nat
  type Callback = nat
  type Error = nat

  /** An entry of the work list that a critical section returns.  A hook is kept as
      the child to stop and the grace period that the child is configured with. */
  datatype Job =
    | RunHooks(hooks: map<NodeId, int>)
    | RunCancel(cause: Cause)
    | RunCallback(cb: Callback)
    | Unwind(delta: int)

  datatype Node = Node(
    parent: Option<NodeId>,
    grace: int,                   // the configured grace period
    armed: bool,                  // mu.cancel is not yet taken
    count: int,
    deferred: seq<Callback>,
    errs: seq<Error>,
    timer: Option<int>,           // deadline of mu.graceTimer
    stopAt: Option<int>,
    hooks: map<NodeId, int>,      // mu.stopHooks
    stopOnIdle: Option<int>,
    stopping: bool)

  /** What a critical section leaves behind.  `hard` is the cause given to the
      one-shot cancel when this section is the one that takes it. */
  datatype Outcome = Outcome(node: Node, jobs: seq<Job>, hard: Option<Cause>)

  datatype Applied = Applied(out: Outcome, ok: bool, overReleased: bool)

  function Fresh(parent: Option<NodeId>, grace: int): Node {
    Node(parent, grace, true, 0, [], [], None, None, map[], None, false)
  }

  function CallbackJobs(cbs: seq<Callback>): seq<Job> {
    seq(|cbs|, i requires 0 <= i < |cbs| => RunCallback(cbs[i]))
  }

  function HardStop(n: Node, cause: Cause): Outcome {
    if !n.armed then Outcome(n, [], None)
    else
      var stopAt := if n.timer.Some? then None else n.stopAt;
      Outcome(n.(armed := false, timer := None, stopAt := stopAt, deferred := []),
              [RunCancel(cause)] + CallbackJobs(n.deferred), Some(cause))
  }

  function UpdateGraceTimer(n: Node, grace: int, now: int): Node {
    var newStopAt := now + grace;
    if n.stopAt.Some? && newStopAt >= n.stopAt.value then n
    else n.(stopAt := Some(newStopAt), timer := Some(newStopAt))
  }

  function HookJobs(hooks: map<NodeId, int>): seq<Job> {
    if |hooks| > 0 then [RunHooks(hooks)] else []
  }

  function SoftStop(n: Node, grace: int, now: int): Outcome {
    var m := n.(stopping := true, hooks := map[]);
    if n.count == 0 then
      var out := HardStop(m, ErrStopped);
      out.(jobs := HookJobs(n.hooks) + out.jobs)
    else if grace <= 0 then
      var out := HardStop(m, ErrGracePeriodExpired);
      out.(jobs := HookJobs(n.hooks) + out.jobs)
    else
      Outcome(UpdateGraceTimer(m, grace, now), HookJobs(n.hooks), None)
  }

  /** The write-locked part of `Apply`, entered after the parent has accepted `delta`. */
  function ApplyLocked(n: Node, delta: int, now: int): Applied {
    if n.stopping && delta > 0 then
      Applied(Outcome(n, if n.parent.Some? then [Unwind(delta)] else [], None), false, false)
    else
      var m := n.(count := n.count + delta);
      if m.count < 0 then Applied(Outcome(m, [], None), false, true)
      else if m.count == 0 && m.stopOnIdle.Some? then
        Applied(SoftStop(m, m.stopOnIdle.value, now), true, false)
      else if m.count == 0 && m.stopping then
        Applied(HardStop(m, ErrStopped), true, false)
      else Applied(Outcome(m, [], None), true, false)
  }

  function StopOnIdle(n: Node, grace: int, now: int): Outcome {
    var m := n.(stopOnIdle := Some(grace));
    if m.count == 0 then SoftStop(m, grace, now) else Outcome(m, [], None)
  }

  /** `addDeferred` runs the callback at once exactly in this case. */
  predicate DefersNothing(n: Node) {
    n.stopping && n.count == 0
  }

  function AddDeferred(n: Node, cb: Callback): Node {
    if DefersNothing(n) then n else n.(deferred := n.deferred + [cb])
  }

  function AddHook(n: Node, child: NodeId, grace: int): Node {
    if n.stopping then n else n.(hooks := n.hooks[child := grace])
  }

  function AddError(n: Node, e: Error): Node {
    n.(errs := n.errs + [e])
  }

  /** `callDeferred` runs a work list backwards. */
  function Reversed(jobs: seq<Job>): seq<Job> {
    if jobs == [] then [] else Reversed(jobs[1..]) + [jobs[0]]
  }

  /** What holds of a node whenever its mutex is free. */
  ghost predicate Lifecycle(n: Node) {
    && n.count >= 0
    && (!n.armed ==> n.stopping)
    && (n.stopping && n.count == 0 ==> !n.armed)
    && (n.stopOnIdle.Some? && n.count == 0 ==> n.stopping)
    && (n.stopping ==> n.hooks == map[])
    && (n.timer.Some? ==> n.stopping)
    && n.stopAt == n.timer
  }

  /** The jobs of a section, in the order of the source's slice: the child hooks it
      disarmed, then the cancel it took, then the callbacks it took. */
  function Jobs(hooks: map<NodeId, int>, hard: Option<Cause>, deferred: seq<Callback>): seq<Job> {
    HookJobs(hooks) +
    match hard
    case None => []
    case Some(cause) => [RunCancel(cause)] + CallbackJobs(deferred)
  }

  /** The contract shared by all stopping sections: jobs are exactly what was disarmed,
      `hard` says whether the cancel was taken, and nothing else moves. */
  ghost predicate Disarms(n: Node, out: Outcome) {
    && out.node.parent == n.parent && out.node.grace == n.grace && out.node.errs == n.errs
    && (n.stopping ==> out.node.stopping)
    && (out.hard.Some? <==> n.armed && !out.node.armed)
    && (out.node.armed ==> n.armed)
    && out.node.deferred == (if out.hard.Some? then [] else n.deferred)
    && (out.node.hooks == n.hooks || out.node.hooks == map[])
    && out.jobs == Jobs(if out.node.hooks == map[] then n.hooks else map[], out.hard, n.deferred)
  }

  lemma HardStopDisarms(n: Node, cause: Cause)
    requires Lifecycle(n) && n.stopping
    ensures Disarms(n, HardStop(n, cause))
    ensures HardStop(n, cause).node.count == n.count
    ensures n.count == 0 || cause == ErrGracePeriodExpired ==> Lifecycle(HardStop(n, cause).node)
  {
    assert HookJobs(map[]) + HardStop(n, cause).jobs == HardStop(n, cause).jobs;
  }

  lemma SoftStopDisarms(n: Node, grace: int, now: int)
    requires n.count >= 0 && n.stopAt == n.timer && (!n.armed ==> n.stopping)
    requires n.stopping ==> n.hooks == map[]
    ensures var out := SoftStop(n, grace, now);
      && Lifecycle(out.node) && Disarms(n, out)
      && out.node.count == n.count && out.node.stopping && out.node.hooks == map[]
      && out.node.stopOnIdle == n.stopOnIdle
      && (out.hard.Some? ==> (out.hard.value == ErrStopped <==> n.count == 0))
  {
    assert HookJobs(n.hooks) + [] == HookJobs(n.hooks);
  }

  /** A hard stop that finds the cancel takes it with the given cause, together with the
      grace timer; a second one changes nothing. */
  lemma HardStopOnce(n: Node, cause: Cause)
    requires Lifecycle(n) && n.stopping
    ensures var out := HardStop(n, cause);
      if n.armed then
        && out.hard == Some(cause) && !out.node.armed && out.node.timer.None? && out.node.stopAt.None?
        && HardStop(out.node, cause) == Outcome(out.node, [], None)
      else out == Outcome(n, [], None)
  {
  }

  /** A soft stop of a node with its cancel hard-stops it at once if and only if there is no
      task or no grace.  Otherwise the timer runs to the earlier of the old and the new
      deadline. */
  lemma SoftStopChoice(n: Node, grace: int, now: int)
    requires Lifecycle(n) && n.armed
    ensures var out := SoftStop(n, grace, now);
      && (out.hard.Some? <==> n.count == 0 || grace <= 0)
      && out.node.armed == out.hard.None?
      && out.node.timer == (if out.hard.Some? then None
                            else if n.timer.Some? && n.timer.value <= now + grace then n.timer
                            else Some(now + grace))
  {
  }

  /** A section of `Apply` that is not an over-release keeps the lifecycle; it refuses
      exactly a positive delta on a stopping node, and takes the cancel only at zero. */
  lemma ApplyKeepsLifecycle(n: Node, delta: int, now: int)
    requires Lifecycle(n) && delta != 0
    ensures var a := ApplyLocked(n, delta, now);
      && (a.overReleased <==> n.count + delta < 0)
      && (!a.overReleased ==> Lifecycle(a.out.node))
      && (!a.overReleased ==> (a.ok <==> !(n.stopping && delta > 0)))
      && a.out.node.count == n.count + (if n.stopping && delta > 0 then 0 else delta)
      && (a.ok ==> Disarms(n, a.out))
      && (a.out.hard.Some? ==> a.out.hard.value == ErrStopped && a.out.node.count == 0)
  {
    if n.stopping && delta > 0 {
    } else {
      var m := n.(count := n.count + delta);
      if m.count == 0 && m.stopOnIdle.Some? {
        SoftStopDisarms(m, m.stopOnIdle.value, now);
      } else if m.count == 0 && m.stopping {
        assert HookJobs(map[]) + HardStop(m, ErrStopped).jobs == HardStop(m, ErrStopped).jobs;
      }
    }
  }

  lemma StopOnIdleKeepsLifecycle(n: Node, grace: int, now: int)
    requires Lifecycle(n)
    ensures var out := StopOnIdle(n, grace, now);
      && Lifecycle(out.node) && Disarms(n, out)
      && out.node.count == n.count && out.node.stopOnIdle == Some(grace)
      && (out.hard.Some? ==> out.hard.value == ErrStopped && n.count == 0)
  {
    SoftStopDisarms(n.(stopOnIdle := Some(grace)), grace, now);
  }

  /** The two branches at the end of `Apply` coincide once the node is stopping. */
  lemma BranchesCoincide(n: Node, grace: int, now: int)
    requires Lifecycle(n.(count := n.count + 1)) && n.stopping && n.count == 0
    ensures SoftStop(n, grace, now) == HardStop(n, ErrStopped)
  {
    assert n.hooks == map[];
    assert HookJobs(n.hooks) + HardStop(n, ErrStopped).jobs == HardStop(n, ErrStopped).jobs;
    assert n.(stopping := true, hooks := map[]) == n;
  }
}
