/**
  `State` as an object whose methods update its fields in place, proved against the
  functions of module StateNode.  The methods named ...Locked are the inside of one
  critical section; they return the work list, which the methods around them call after
  unlocking.
 */
module StateObject {
  import opened Options
  import opened StateNode

  function NonNil(errs: seq<Option<Error>>): seq<Error> {
    if errs == [] then []
    else
      var last := errs[|errs| - 1];
      NonNil(errs[..|errs| - 1]) + (if last.Some? then [last.value] else [])
  }

  /** The results of a list of jobs, in the order of the list. */
  function Results(jobs: seq<Job>, result: Job -> Option<Error>): seq<Option<Error>> {
    seq(|jobs|, i requires 0 <= i < |jobs| => result(jobs[i]))
  }

  lemma NonNilAppend(errs: seq<Option<Error>>, e: Option<Error>)
    ensures NonNil(errs + [e]) == NonNil(errs) + (if e.Some? then [e.value] else [])
  {
    assert (errs + [e])[..|errs|] == errs;
  }

  /** A node after a section and the calls that the section leads to. */
  function AfterCalls(out: Outcome, result: Job -> Option<Error>): Node {
    out.node.(errs := out.node.errs + NonNil(Results(Reversed(out.jobs), result)))
  }

  class State {
    const id: NodeId
    const grace: int
    const parent: State?
    const depth: nat

    var locked: bool
    var armed: bool
    var count: int
    var deferred: seq<Callback>
    var errs: seq<Error>
    var graceTimer: Option<int>
    var stopAt: Option<int>
    var stopHooks: map<NodeId, int>
    var stopOnIdle: Option<int>
    var stopping: bool

    function Model(): Node
      reads this
    {
      Node(if parent == null then None else Some(parent.id),
           grace, armed, count, deferred, errs, graceTimer, stopAt, stopHooks, stopOnIdle, stopping)
    }

    constructor (id: NodeId, grace: int, parent: State?)
      ensures this.id == id && this.parent == parent
      ensures depth == if parent == null then 0 else parent.depth + 1
      ensures !locked && Model() == Fresh(if parent == null then None else Some(parent.id), grace)
    {
      this.id := id;
      this.grace := grace;
      this.parent := parent;
      this.depth := if parent == null then 0 else parent.depth + 1;
      locked := false;
      armed, count, deferred, errs := true, 0, [], [];
      graceTimer, stopAt, stopHooks, stopOnIdle, stopping := None, None, map[], None, false;
    }

    /** Taking a mutex that is held by the calling thread would never return. */
    method Lock()
      requires !locked
      modifies this`locked
      ensures locked
    {
      locked := true;
    }

    method Unlock()
      requires locked
      modifies this`locked
      ensures !locked
    {
      locked := false;
    }

    method HardStopLocked(cause: Cause) returns (jobs: seq<Job>)
      requires locked
      modifies this
      ensures locked
      ensures Model() == HardStop(old(Model()), cause).node
      ensures jobs == HardStop(old(Model()), cause).jobs
    {
      if !armed {
        return [];
      }
      armed := false;
      if graceTimer.Some? {
        graceTimer := None;
        stopAt := None;
      }
      jobs := [RunCancel(cause)];
      var i := 0;
      while i < |deferred|
        invariant 0 <= i <= |deferred|
        invariant jobs == [RunCancel(cause)] + CallbackJobs(deferred[..i])
        modifies {}
      {
        jobs := jobs + [RunCallback(deferred[i])];
        assert deferred[..i + 1] == deferred[..i] + [deferred[i]];
        i := i + 1;
      }
      assert deferred[..i] == deferred;
      deferred := [];
    }

    method UpdateGraceTimerLocked(grace: int, now: int)
      requires locked
      modifies this`graceTimer, this`stopAt
      ensures Model() == UpdateGraceTimer(old(Model()), grace, now)
    {
      var newStopAt := now + grace;
      if stopAt.Some? && newStopAt >= stopAt.value {
        return;
      }
      stopAt := Some(newStopAt);
      graceTimer := Some(newStopAt);
    }

    method SoftStopLocked(grace: int, now: int) returns (jobs: seq<Job>)
      requires locked
      modifies this
      ensures locked
      ensures Model() == SoftStop(old(Model()), grace, now).node
      ensures jobs == SoftStop(old(Model()), grace, now).jobs
    {
      stopping := true;
      jobs := [];
      if |stopHooks| > 0 {
        jobs := [RunHooks(stopHooks)];
        stopHooks := map[];
      }
      assert stopHooks == map[];
      if count == 0 {
        var more := HardStopLocked(ErrStopped);
        jobs := jobs + more;
      } else if grace <= 0 {
        var more := HardStopLocked(ErrGracePeriodExpired);
        jobs := jobs + more;
      } else {
        UpdateGraceTimerLocked(grace, now);
      }
    }

    /** The write-locked section of `Apply`. */
    method ApplyLocked(delta: int, now: int) returns (ok: bool, overReleased: bool, jobs: seq<Job>)
      requires locked
      modifies this
      ensures locked
      ensures var a := StateNode.ApplyLocked(old(Model()), delta, now);
        Model() == a.out.node && jobs == a.out.jobs && ok == a.ok && overReleased == a.overReleased
    {
      jobs := [];
      if stopping && delta > 0 {
        if parent != null {
          jobs := [Unwind(delta)];
        }
        return false, false, jobs;
      }
      count := count + delta;
      if count < 0 {
        return false, true, jobs;
      }
      if count == 0 {
        if stopOnIdle.Some? {
          jobs := SoftStopLocked(stopOnIdle.value, now);
        } else if stopping {
          jobs := HardStopLocked(ErrStopped);
        }
      }
      return true, false, jobs;
    }

    method StopOnIdleLocked(grace: int, now: int) returns (jobs: seq<Job>)
      requires locked
      modifies this
      ensures locked
      ensures Model() == StateNode.StopOnIdle(old(Model()), grace, now).node
      ensures jobs == StateNode.StopOnIdle(old(Model()), grace, now).jobs
    {
      stopOnIdle := Some(grace);
      jobs := [];
      if count == 0 {
        jobs := SoftStopLocked(grace, now);
      }
    }

    /** Reports whether the callback was kept for the hard stop; if not, the caller runs
        it at once. */
    method AddDeferredLocked(cb: Callback) returns (kept: bool)
      requires locked
      modifies this`deferred
      ensures Model() == StateNode.AddDeferred(old(Model()), cb)
      ensures kept <==> !DefersNothing(old(Model()))
    {
      if stopping && count == 0 {
        return false;
      }
      deferred := deferred + [cb];
      return true;
    }

    /** Reports whether the hook was armed; if not, the caller runs it at once. */
    method AddStopHookLocked(child: NodeId, grace: int) returns (kept: bool)
      requires locked
      modifies this`stopHooks
      ensures Model() == AddHook(old(Model()), child, grace)
      ensures kept <==> !stopping
    {
      if stopping {
        return false;
      }
      stopHooks := stopHooks[child := grace];
      return true;
    }

    method RemoveStopHookLocked(child: NodeId)
      requires locked
      modifies this`stopHooks
      ensures Model() == old(Model()).(hooks := old(Model()).hooks - {child})
    {
      stopHooks := stopHooks - {child};
    }

    method AddErrors(added: seq<Option<Error>>)
      requires !locked
      modifies this`errs, this`locked
      ensures !locked && errs == old(errs) + NonNil(added)
    {
      Lock();
      var i := 0;
      while i < |added|
        invariant 0 <= i <= |added| && locked
        invariant errs == old(errs) + NonNil(added[..i])
        modifies this`errs
      {
        NonNilAppend(added[..i], added[i]);
        assert added[..i + 1] == added[..i] + [added[i]];
        if added[i].Some? {
          errs := errs + [added[i].value];
        }
        i := i + 1;
      }
      assert added[..i] == added;
      Unlock();
    }

    /** Runs a work list backwards, with the mutex free; `result` is what user code answers.
        The errors are recorded in the order in which the jobs ran. */
    method CallDeferred(toCall: seq<Job>, result: Job -> Option<Error>) returns (called: seq<Job>)
      requires !locked
      modifies this`errs, this`locked
      ensures !locked && called == Reversed(toCall)
      ensures errs == old(errs) + NonNil(Results(Reversed(toCall), result))
    {
      var i := |toCall|;
      called := [];
      assert toCall[i..] == [];
      while i > 0
        invariant 0 <= i <= |toCall| && !locked
        invariant called == Reversed(toCall[i..])
        invariant errs == old(errs) + NonNil(Results(called, result))
        modifies this`errs, this`locked
      {
        i := i - 1;
        var e := result(toCall[i]);
        NonNilAppend(Results(called, result), e);
        assert Results(called + [toCall[i]], result) == Results(called, result) + [e];
        assert toCall[i..][1..] == toCall[i + 1..];
        called := called + [toCall[i]];
        if e.Some? {
          NonNilAppend([], e);
          assert [] + [e] == [e];
          AddErrors([e]);
        }
      }
      assert toCall[0..] == toCall;
    }

    // The methods of the package, undisturbed by other threads.  Each gives its mutex back
    // before it calls what the section leads to.

    method Stop(grace: int, now: int, result: Job -> Option<Error>) returns (called: seq<Job>)
      requires !locked
      modifies this
      ensures !locked && Model() == AfterCalls(SoftStop(old(Model()), grace, now), result)
      ensures called == Reversed(SoftStop(old(Model()), grace, now).jobs)
    {
      Lock();
      var jobs := SoftStopLocked(grace, now);
      Unlock();
      called := CallDeferred(jobs, result);
    }

    method StopOnIdle(grace: int, now: int, result: Job -> Option<Error>) returns (called: seq<Job>)
      requires !locked
      modifies this
      ensures !locked && Model() == AfterCalls(StateNode.StopOnIdle(old(Model()), grace, now), result)
      ensures called == Reversed(StateNode.StopOnIdle(old(Model()), grace, now).jobs)
    {
      Lock();
      var jobs := StopOnIdleLocked(grace, now);
      Unlock();
      called := CallDeferred(jobs, result);
    }

    /** What a fired timer does. */
    method Expire(result: Job -> Option<Error>) returns (called: seq<Job>)
      requires !locked
      modifies this
      ensures !locked && Model() == AfterCalls(HardStop(old(Model()), ErrGracePeriodExpired), result)
      ensures called == Reversed(HardStop(old(Model()), ErrGracePeriodExpired).jobs)
    {
      Lock();
      var jobs := HardStopLocked(ErrGracePeriodExpired);
      Unlock();
      called := CallDeferred(jobs, result);
    }

    /** `answer` is what the callback returns if it is run at once. */
    method AddDeferred(cb: Callback, answer: Option<Error>) returns (kept: bool)
      requires !locked
      modifies this
      ensures !locked && (kept <==> !DefersNothing(old(Model())))
      ensures kept ==> Model() == StateNode.AddDeferred(old(Model()), cb)
      ensures !kept ==> Model() == old(Model()).(errs := old(errs) + NonNil([answer]))
    {
      Lock();
      kept := AddDeferredLocked(cb);
      Unlock();
      if !kept {
        AddErrors([answer]);
      }
    }

    // The whole of Apply, undisturbed by other threads.

    ghost predicate Linked()
      decreases depth
    {
      parent != null ==> parent.depth < depth && parent.Linked()
    }

    /** The node and its ancestors. */
    ghost function Chain(): set<State>
      requires Linked()
      decreases depth
    {
      {this} + if parent == null then {} else parent.Chain()
    }

    lemma ChainIsBelow(s: State)
      requires Linked() && s in Chain()
      ensures s.depth <= depth && (s.depth == depth ==> s == this)
      decreases depth
    {
      if parent != null && s in parent.Chain() { parent.ChainIsBelow(s); }
    }

    /** The jobs of all sections in the order in which they run: root first. */
    ghost function Work(delta: int, now: int): seq<Job>
      requires Linked()
      reads Chain()
      decreases depth
    {
      (if parent == null then [] else parent.Work(delta, now))
      + Reversed(StateNode.ApplyLocked(Model(), delta, now).out.jobs)
    }

    /** The source panics when more is released than was acquired. */
    ghost predicate Releasable(delta: int, chain: set<State>)
      reads chain
    {
      forall s :: s in chain ==> s.count >= 0 && s.count + delta >= 0
    }

    ghost predicate AllFree(chain: set<State>)
      reads chain
    {
      forall s :: s in chain ==> !s.locked
    }

    method IsStopping() returns (yes: bool)
      requires !locked
      modifies this`locked
      ensures unchanged(this) && yes == stopping
    {
      Lock();
      yes := stopping;
      Unlock();
    }

    /** The write-locked section of Apply on this node alone, once the parent has accepted
        the delta and nobody has stopped the node in between. */
    method ApplyHere(delta: int, now: int, result: Job -> Option<Error>) returns (called: seq<Job>)
      requires !locked && (delta > 0 ==> !stopping) && count + delta >= 0
      modifies this
      ensures !locked && Model() == AfterCalls(StateNode.ApplyLocked(old(Model()), delta, now).out, result)
      ensures called == Reversed(StateNode.ApplyLocked(old(Model()), delta, now).out.jobs)
    {
      Lock();
      var ok, overReleased, jobs := ApplyLocked(delta, now);
      Unlock();
      called := CallDeferred(jobs, result);
    }

    /** All or nothing, for acquires and releases of any size: the section is run on the node
        and all its ancestors, and their work lists are called from the root down; or the
        delta is positive and one of them is stopping, and nothing changes.  An unwind is
        therefore only ever needed when another thread stops a node between two of the
        sections. */
    method Apply(delta: int, now: int, result: Job -> Option<Error>, ghost chain: set<State>)
      returns (ok: bool, called: seq<Job>)
      requires Linked() && chain == Chain() && Releasable(delta, chain) && AllFree(chain)
      modifies chain
      decreases depth, 1
      ensures AllFree(chain)
      ensures ok <==> delta < 0 || (delta > 0 && forall s :: s in chain ==> !old(s.stopping))
      ensures forall s :: s in chain ==>
        s.Model() == if ok then AfterCalls(StateNode.ApplyLocked(old(s.Model()), delta, now).out, result)
                     else old(s.Model())
      ensures called == if ok then old(Work(delta, now)) else []
    {
      ok, called := false, [];
      if delta == 0 {
        return;
      }
      var isStopping := IsStopping();
      if isStopping && delta > 0 {
        return;
      }
      ok, called := ApplyFrom(delta, now, result, chain);
    }

    /** Apply after its fast check. */
    method ApplyFrom(delta: int, now: int, result: Job -> Option<Error>, ghost chain: set<State>)
      returns (ok: bool, called: seq<Job>)
      requires Linked() && chain == Chain() && Releasable(delta, chain) && AllFree(chain)
      requires delta != 0 && (delta > 0 ==> !stopping)
      modifies chain
      decreases depth, 0
      ensures AllFree(chain)
      ensures ok <==> delta < 0 || forall s :: s in chain ==> !old(s.stopping)
      ensures forall s :: s in chain ==>
        s.Model() == if ok then AfterCalls(StateNode.ApplyLocked(old(s.Model()), delta, now).out, result)
                     else old(s.Model())
      ensures called == if ok then old(Work(delta, now)) else []
    {
      called := [];
      if parent != null {
        assert this !in parent.Chain() by {
          if this in parent.Chain() { parent.ChainIsBelow(this); }
        }
        assert chain - {this} == parent.Chain();
        ok, called := parent.Apply(delta, now, result, chain - {this});
        if !ok {
          return;
        }
      }
      var ran := ApplyHere(delta, now, result);
      ok, called := true, called + ran;
    }
  }
}
