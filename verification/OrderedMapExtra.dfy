/**
  The extra element of ordered Map: it is yielded after the results exactly when Wait
  reports an error, and which errors those can be.
 */
module OrderedMapExtra {
  import opened Options
  import opened SeqStopper
  import opened OrderedMap
  import opened OrderedMapOrder
  import opened OrderedMapLife

  /** The error handler records the errors of tasks. */
  predicate Records(input: Input) {
    !input.handler.HandlerOther?
  }

  /** Something has happened that Wait has to report. */
  predicate Faulty(input: Input, h: History) {
    h.refused || h.added || (h.failed && Records(input))
  }

  ghost predicate SomeFailing(s: World) {
    exists w :: 0 <= w < |s.workers| && s.workers[w].Failed?
  }

  /** Before Wait: the recorded errors, or a handler that has still to record one, tell
      whether there is something to report. */
  ghost predicate Gathering(input: Input, s: World) {
    && (s.nested.errs != [] ==> Faulty(input, s.hist))
    && (s.hist.refused || s.hist.added ==> s.nested.errs != [])
    && (s.hist.failed && Records(input) && s.nested.errs == [] ==> SomeFailing(s))
    && s.extra == None
  }

  /** After Wait. */
  ghost predicate Told(input: Input, s: World) {
    && s.nested.ctxDone
    && (!s.hist.expired ==> (s.extra.Some? <==> Faulty(input, s.hist) || s.nested.graceCause))
    && (s.hist.expired && !s.hist.cancelled ==> s.extra.Some? && s.extra.value.grace)
    && (s.extra.Some? ==> s.extra.value.errs <= s.nested.errs && s.extra.value.grace == s.nested.graceCause)
  }

  ghost predicate ExtraInv(input: Input, s: World) {
    && (!Ending(s.consumer) ==> Gathering(input, s))
    && (Waited(s) ==> Told(input, s))
    && (s.hist.broke || s.hist.threw ==> s.extra == None)
  }

  lemma WorkGathers(input: Input, s: World, w: nat, sel: Select)
    requires Inv(input, s) && Gathering(input, s) && FailedNoted(s) && WorkEnabled(input, s, w, sel)
    ensures Gathering(input, WorkStep(input, s, w, sel))
  {
    WorkFrame(input, s, w, sel);
    WorkStops(input, s, w, sel);
    WorkFaults(input, s, w, sel);
    var u := WorkStep(input, s, w, sel);
    if u.hist.failed && Records(input) && u.nested.errs == [] {
      if s.hist.failed && s.nested.errs == [] {
        var v :| 0 <= v < |s.workers| && s.workers[v].Failed?;
        assert v != w;
        assert u.workers[v].Failed?;
      } else {
        assert u.workers[w].Failed?;
      }
    }
  }

  /** A task that fails is about to have its error recorded, and recording needs a handler
      that does so. */
  lemma WorkFaults(input: Input, s: World, w: nat, sel: Select)
    requires WorkEnabled(input, s, w, sel)
    ensures var u := WorkStep(input, s, w, sel);
      && |u.workers| == |s.workers| && u.extra == s.extra
      && (u.hist.failed != s.hist.failed ==> u.workers[w].Failed?)
      && (s.workers[w].Failed? && Records(input) ==> u.nested.errs != [])
      && (u.nested.errs != s.nested.errs ==> s.workers[w].Failed? && Records(input))
  {
    WorkStops(input, s, w, sel);
    if !Ended(s.workers[w]) && !s.workers[w].Holding? { LoopFaults(input, s, w, sel); }
  }

  lemma LoopFaults(input: Input, s: World, w: nat, sel: Select)
    requires WorkEnabled(input, s, w, sel) && !Ended(s.workers[w]) && !s.workers[w].Holding?
    ensures var u := LoopStep(input, s, w, sel);
      && |u.workers| == |s.workers| && u.extra == s.extra
      && (u.hist.failed != s.hist.failed ==> u.workers[w].Failed?)
  {
  }

  /** A task that has failed has failed before. */
  ghost predicate FailedNoted(s: World) {
    forall w :: 0 <= w < |s.workers| && (s.workers[w].Failed? || s.workers[w].Halting?) ==> s.hist.failed
  }

  lemma WorkKeepsExtra(input: Input, s: World, w: nat, sel: Select)
    requires Inv(input, s) && ExtraInv(input, s) && FailedNoted(s) && WorkEnabled(input, s, w, sel)
    ensures ExtraInv(input, WorkStep(input, s, w, sel))
  {
    WorkFrame(input, s, w, sel);
    WorkStops(input, s, w, sel);
    WorkFaults(input, s, w, sel);
    if !Ending(s.consumer) {
      WorkGathers(input, s, w, sel);
    } else if Waited(s) {
      LiveMember(s.workers, w);
      assert s.hist.expired;
    }
  }

  lemma WorkKeepsNoted(input: Input, s: World, w: nat, sel: Select)
    requires FailedNoted(s) && WorkEnabled(input, s, w, sel)
    ensures FailedNoted(WorkStep(input, s, w, sel))
  {
    WorkFrame(input, s, w, sel);
    WorkFails(input, s, w, sel);
  }

  lemma WorkFails(input: Input, s: World, w: nat, sel: Select)
    requires WorkEnabled(input, s, w, sel)
    ensures var u := WorkStep(input, s, w, sel);
      && |u.workers| == |s.workers|
      && (u.workers[w].Failed? || u.workers[w].Halting? ==> u.hist.failed || s.workers[w].Failed?)
  {
  }

  /** Wait finds everything recorded, unless a grace period has expired. */
  lemma WaitTells(input: Input, s: World, ans: Answer)
    requires Inv(input, s) && Gathering(input, s) && s.consumer.WaitDone? && ConsumeEnabled(s)
    ensures Told(input, ConsumeStep(s, ans))
  {
    if !s.hist.expired && SomeFailing(s) {
      var w :| 0 <= w < |s.workers| && s.workers[w].Failed?;
      LiveMember(s.workers, w);
    }
  }

  lemma ConsumeKeepsExtra(input: Input, s: World, ans: Answer)
    requires Inv(input, s) && ExtraInv(input, s) && ConsumeEnabled(s)
    ensures ExtraInv(input, ConsumeStep(s, ans))
  {
    if s.consumer.WaitDone? {
      WaitTells(input, s, ans);
    } else if s.consumer.Spawning? {
      SpawnKeepsExtra(input, s);
    } else {
      LeaveWorkers(s, ans);
      ConsumeHistory(s, ans);
      OtherConsume(s, ans);
    }
  }

  lemma OtherConsume(s: World, ans: Answer)
    requires LoopOk(s) && ConsumeEnabled(s) && !s.consumer.WaitDone? && !s.consumer.Spawning?
    ensures var u := ConsumeStep(s, ans);
      && u.extra == s.extra && u.nested.errs == s.nested.errs
      && u.nested.ctxDone == s.nested.ctxDone && u.nested.graceCause == s.nested.graceCause
      && (Waited(u) ==> Waited(s) || s.hist.broke || s.hist.threw || u.hist.threw)
      && (Ending(s.consumer) ==> Ending(u.consumer))
  {
  }

  lemma SpawnKeepsExtra(input: Input, s: World)
    requires Inv(input, s) && ExtraInv(input, s) && s.consumer.Spawning?
    ensures ExtraInv(input, Spawn(s, s.consumer.k))
  {
    var u := Spawn(s, s.consumer.k);
    if SomeFailing(s) {
      var w :| 0 <= w < |s.workers| && s.workers[w].Failed?;
      if s.consumer.k < |s.workers| { assert s.workers[s.consumer.k].NotStarted?; }
      assert u.workers[w].Failed?;
    }
  }

  lemma OtherKeepsExtra(input: Input, s: World, l: Label)
    requires Inv(input, s) && ExtraInv(input, s) && Enabled(input, s, l) && !l.Work? && !l.Consume?
    ensures ExtraInv(input, Step(input, s, l))
  {
    var u := Step(input, s, l);
    assert u.workers == s.workers && u.extra == s.extra && u.consumer == s.consumer;
    assert SomeFailing(s) ==> SomeFailing(u);
  }

  lemma StepKeepsExtra(input: Input, s: World, l: Label)
    requires Inv(input, s) && ExtraInv(input, s) && FailedNoted(s) && Enabled(input, s, l)
    ensures ExtraInv(input, Step(input, s, l)) && FailedNoted(Step(input, s, l))
  {
    match l
    case Work(w, sel) => WorkKeepsExtra(input, s, w, sel); WorkKeepsNoted(input, s, w, sel);
    case Consume(ans) => ConsumeKeepsExtra(input, s, ans); ConsumeKeepsNoted(input, s, ans);
    case _ => OtherKeepsExtra(input, s, l); OtherKeepsNoted(input, s, l);
  }

  lemma ConsumeKeepsNoted(input: Input, s: World, ans: Answer)
    requires Inv(input, s) && FailedNoted(s) && ConsumeEnabled(s)
    ensures FailedNoted(ConsumeStep(s, ans))
  {
    if !s.consumer.Spawning? { LeaveWorkers(s, ans); ConsumeHistory(s, ans); }
  }

  lemma OtherKeepsNoted(input: Input, s: World, l: Label)
    requires FailedNoted(s) && Enabled(input, s, l) && !l.Work? && !l.Consume?
    ensures FailedNoted(Step(input, s, l))
  {
    assert Step(input, s, l).workers == s.workers;
  }

  lemma {:induction false} RunKeepsExtra(input: Input, s: World, ls: seq<Label>, u: World)
    requires Inv(input, s) && ExtraInv(input, s) && FailedNoted(s) && IsRun(input, s, ls, u)
    ensures Inv(input, u) && ExtraInv(input, u)
    decreases |ls|
  {
    if ls != [] {
      StepKeepsInv(input, s, ls[0]);
      StepKeepsExtra(input, s, ls[0]);
      RunKeepsExtra(input, Step(input, s, ls[0]), ls[1..], u);
    }
  }

  lemma InitExtra(input: Input)
    ensures FailedNoted(Init(input.workers)) && ExtraInv(input, Init(input.workers))
  {
  }

  lemma ReachableExtra(input: Input, s: World)
    requires Reachable(input, s)
    ensures Inv(input, s) && ExtraInv(input, s)
  {
    var ls :| IsRun(input, Init(input.workers), ls, s);
    InitInv(input);
    InitExtra(input);
    RunKeepsExtra(input, Init(input.workers), ls, s);
  }

  /** When the results were drained and Wait has returned, the extra element was yielded
      exactly when a worker was refused, user code had added an error, a task failed under
      a handler that records errors, or the context's cause is an expired grace period.  If
      the nested stopper's own grace period expired, other errors may come too late to be
      seen, but the element is there, unless the enclosing context was cancelled.  After a
      break or a panic of the loop body there is no such element. */
  lemma ExtraElement(input: Input, s: World)
    requires Reachable(input, s) && Ending(s.consumer)
    ensures s.hist.broke || s.hist.threw ==> s.extra == None
    ensures Waited(s) && !s.hist.expired ==>
      (s.extra.Some? <==>
        s.hist.refused || s.hist.added || (s.hist.failed && Records(input)) || s.nested.graceCause)
    ensures Waited(s) && s.hist.expired && !s.hist.cancelled ==> s.extra.Some? && s.extra.value.grace
    ensures s.extra.Some? ==> s.extra.value.errs <= s.nested.errs
  {
    ReachableExtra(input, s);
  }

  /** The whole output of an undisturbed run: the sequential map of the input, and then an
      extra element if and only if a worker was refused, user code added an error, or the
      input's panic was recorded. */
  lemma OutputWhenUndisturbed(input: Input, s: World)
    requires Reachable(input, s) && Waited(s) && !Disturbed(s) && SomeStarted(s)
    ensures s.yielded == AllResults(input)
    ensures s.extra.Some? <==> s.hist.refused || s.hist.added || (input.panics && Records(input))
  {
    ReachableExtra(input, s);
    DrainedEnds(input, s);
    AllYielded(input, s);
  }
}
