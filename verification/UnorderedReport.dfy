/**
  What the unordered operators report at their end: the extra element of MapUnordered and
  the error that ForEach returns.
 */
module UnorderedReport {
  import opened Options
  import opened SeqStopper
  import opened Unordered
  import opened UnorderedPlaces
  import opened UnorderedLife

  /** The error handler records the errors of tasks. */
  predicate Records(input: Input) {
    !input.handler.HandlerOther?
  }

  predicate Faulty(input: Input, h: History) {
    h.refused || h.added || (h.failed && Records(input))
  }

  ghost predicate SomeFailing(s: World) {
    exists w :: 0 <= w < |s.workers| && s.workers[w].Failed?
  }

  /** Before Wait: the recorded errors, or a handler that has still to record one, tell
      whether there is something to report. */
  ghost predicate Gathering(input: Input, s: World) {
    && (s.nested.errs != [] ==> Faulty(input, s.hist))
    && (s.hist.refused || s.hist.added ==> s.nested.errs != [])
    && (s.hist.failed && Records(input) && s.nested.errs == [] ==> SomeFailing(s))
    && s.report == None
  }

  /** Wait has seen all there is: no grace period expired, and WaitCtx was not cut short. */
  predicate SawAll(input: Input, s: World) {
    !s.hist.expired && !(input.collects && s.cancelled)
  }

  /** After Wait. */
  ghost predicate Told(input: Input, s: World) {
    && (SawAll(input, s) ==>
          (s.report.Some? <==> Faulty(input, s.hist) || s.nested.graceCause || s.out.errs != []))
    && (SawAll(input, s) && s.report.Some? ==> s.report.value.failures == s.out.errs && !s.report.value.outer)
    && (s.hist.expired && !s.cancelled ==> s.report.Some? && s.report.value.grace)
    && (s.report.Some? ==> s.report.value.faults <= s.nested.errs && s.report.value.failures <= s.out.errs)
    && (s.report.Some? && s.report.value.outer ==> input.collects && s.cancelled && !s.report.value.grace)
  }

  ghost predicate ReportInv(input: Input, s: World) {
    && (!Ending(s.consumer) ==> Gathering(input, s))
    && (Waited(s) ==> Told(input, s))
    && (s.hist.broke || s.hist.threw ==> s.report == None)
  }

  lemma SawAllEnds(input: Input, s: World)
    requires Inv(input, s) && SawAll(input, s)
    requires Waited(s) || (s.consumer.WaitDone? && ConsumeEnabled(input, s))
    ensures Live(s.workers) == 0 && s.nested.ctxDone
  {
  }

  /** What a worker's step does to the errors. */
  lemma WorkFaults(input: Input, s: World, w: nat, sel: Select)
    requires WorkEnabled(input, s, w, sel)
    ensures var u := WorkStep(input, s, w, sel);
      && |u.workers| == |s.workers|
      && (u.hist.failed != s.hist.failed ==> u.workers[w].Failed?)
      && (s.workers[w].Failed? && Records(input) ==> u.nested.errs != [])
      && (u.nested.errs != s.nested.errs ==> s.workers[w].Failed? && Records(input))
      && s.nested.errs <= u.nested.errs && s.out.errs <= u.out.errs
  {
    WorkStops(input, s, w, sel);
    if Ended(s.workers[w]) { EndFrame(input, s, w); }
    else if !s.workers[w].Sending? { LoopFrame(input, s, w); LoopFails(input, s, w); }
  }

  lemma LoopFails(input: Input, s: World, w: nat)
    requires w < |s.workers| && Active(s.workers[w]) && !s.workers[w].Sending? && !Ended(s.workers[w])
    requires s.workers[w].Calling? ==> s.workers[w].item < |input.items|
    ensures var u := LoopStep(input, s, w);
      |u.workers| == |s.workers| && (u.hist.failed != s.hist.failed ==> u.workers[w].Failed?)
  {
  }

  lemma WorkGathers(input: Input, s: World, w: nat, sel: Select)
    requires Inv(input, s) && Gathering(input, s) && WorkEnabled(input, s, w, sel)
    ensures Gathering(input, WorkStep(input, s, w, sel))
  {
    WorkFrame(input, s, w, sel);
    WorkStops(input, s, w, sel);
    WorkFaults(input, s, w, sel);
    var u := WorkStep(input, s, w, sel);
    if u.hist.failed && Records(input) && u.nested.errs == [] {
      if s.hist.failed && s.nested.errs == [] {
        var v :| 0 <= v < |s.workers| && s.workers[v].Failed?;
        assert v != w;
        assert u.workers[v].Failed?;
      } else {
        assert u.workers[w].Failed?;
      }
    }
  }

  lemma WorkKeepsReport(input: Input, s: World, w: nat, sel: Select)
    requires Inv(input, s) && ReportInv(input, s) && WorkEnabled(input, s, w, sel)
    ensures ReportInv(input, WorkStep(input, s, w, sel))
  {
    WorkFrame(input, s, w, sel);
    WorkFaults(input, s, w, sel);
    if !Ending(s.consumer) {
      WorkGathers(input, s, w, sel);
    } else if Waited(s) {
      LiveMember(s.workers, w);
      if SawAll(input, s) { SawAllEnds(input, s); }
    }
  }

  lemma WaitTells(input: Input, s: World, ans: Answer)
    requires Inv(input, s) && Gathering(input, s) && s.consumer.WaitDone? && ConsumeEnabled(input, s)
    ensures Told(input, ConsumeStep(input, s, ans))
  {
    if SawAll(input, s) {
      SawAllEnds(input, s);
      if w :| 0 <= w < |s.workers| && s.workers[w].Failed? { LiveMember(s.workers, w); }
    }
  }

  lemma ConsumeKeepsReport(input: Input, s: World, ans: Answer)
    requires Inv(input, s) && ReportInv(input, s) && ConsumeEnabled(input, s)
    ensures ReportInv(input, ConsumeStep(input, s, ans))
  {
    if s.consumer.WaitDone? {
      WaitTells(input, s, ans);
    } else if s.consumer.Spawning? {
      SpawnKeepsReport(input, s);
    } else {
      ConsumeHistory(input, s, ans);
      OtherConsume(input, s, ans);
    }
  }

  lemma OtherConsume(input: Input, s: World, ans: Answer)
    requires LoopOk(input, s) && ConsumeEnabled(input, s) && !s.consumer.WaitDone? && !s.consumer.Spawning?
    ensures var u := ConsumeStep(input, s, ans);
      && u.report == s.report && u.nested.errs == s.nested.errs
      && u.nested.graceCause == s.nested.graceCause
      && (Waited(u) ==> Waited(s) || s.hist.broke || s.hist.threw || u.hist.threw)
      && (Ending(s.consumer) ==> Ending(u.consumer))
  {
  }

  lemma SpawnKeepsReport(input: Input, s: World)
    requires Inv(input, s) && ReportInv(input, s) && s.consumer.Spawning?
    ensures ReportInv(input, Spawn(s, s.consumer.k))
  {
    var u := Spawn(s, s.consumer.k);
    if SomeFailing(s) {
      var w :| 0 <= w < |s.workers| && s.workers[w].Failed?;
      if s.consumer.k < |s.workers| { assert s.workers[s.consumer.k].NotStarted?; }
      assert u.workers[w].Failed?;
    }
  }

  lemma OtherKeepsReport(input: Input, s: World, l: Label)
    requires Inv(input, s) && ReportInv(input, s) && Enabled(input, s, l) && !l.Work? && !l.Consume?
    ensures ReportInv(input, Step(input, s, l))
  {
    var u := Step(input, s, l);
    OtherErrors(input, s, l);
    if !Ending(s.consumer) { assert SomeFailing(s) ==> SomeFailing(u); }
    if Waited(s) && SawAll(input, s) { SawAllEnds(input, s); }
  }

  /** What the stopper and the environment do to what is reported. */
  lemma OtherErrors(input: Input, s: World, l: Label)
    requires Enabled(input, s, l) && !l.Work? && !l.Consume?
    ensures var u := Step(input, s, l);
      && u.workers == s.workers && u.report == s.report && u.consumer == s.consumer && u.out.errs == s.out.errs
      && s.nested.errs <= u.nested.errs && (s.nested.ctxDone ==> u.nested.graceCause == s.nested.graceCause)
      && (s.cancelled ==> u.cancelled)
      && u.hist.(expired := s.hist.expired, added := s.hist.added, faults := s.hist.faults) == s.hist
      && (u.hist.expired != s.hist.expired ==> s.nested.phase.Armed? && u.hist.expired)
      && (if l.EnvError? && !Ending(s.consumer) then u.hist.added && u.nested.errs != []
          else u.hist.added == s.hist.added && (l.EnvError? || u.nested.errs == s.nested.errs))
  {
    if !l.EnvError? && !l.EnvExpire? { assert Step(input, s, l).hist == s.hist; }
  }

  lemma StepKeepsReport(input: Input, s: World, l: Label)
    requires Inv(input, s) && ReportInv(input, s) && Enabled(input, s, l)
    ensures ReportInv(input, Step(input, s, l))
  {
    match l
    case Work(w, sel) => WorkKeepsReport(input, s, w, sel);
    case Consume(ans) => ConsumeKeepsReport(input, s, ans);
    case _ => OtherKeepsReport(input, s, l);
  }

  lemma {:induction false} RunKeepsReport(input: Input, s: World, ls: seq<Label>, u: World)
    requires Inv(input, s) && ReportInv(input, s) && IsRun(input, s, ls, u)
    ensures Inv(input, u) && ReportInv(input, u)
    decreases |ls|
  {
    if ls != [] {
      StepKeepsInv(input, s, ls[0]);
      StepKeepsReport(input, s, ls[0]);
      RunKeepsReport(input, Step(input, s, ls[0]), ls[1..], u);
    }
  }

  lemma ReachableReport(input: Input, s: World)
    requires Reachable(input, s)
    ensures Inv(input, s) && ReportInv(input, s)
  {
    var ls :| IsRun(input, Init(input.workers), ls, s);
    InitInv(input);
    RunKeepsReport(input, Init(input.workers), ls, s);
  }

  /** After Wait, if no grace period expired and WaitCtx was not cut short by the cancelled
      context, something is reported exactly when a worker was refused, user code added an
      error, a task failed under a handler that records errors, an item failed in ForEach,
      or the context's cause is an expired grace period; and then the report has the
      failures of all items.  An own grace period that expired is always reported, unless
      the enclosing context was cancelled.  In every run the report has the first of the
      recorded errors and failures, and the error of the enclosing context at most for a
      cancelled ForEach. */
  lemma ReportExactly(input: Input, s: World)
    requires Reachable(input, s) && Waited(s)
    ensures SawAll(input, s) ==>
      (s.report.Some? <==>
        s.hist.refused || s.hist.added || (s.hist.failed && Records(input)) || s.out.errs != []
        || s.nested.graceCause)
    ensures SawAll(input, s) && s.report.Some? ==> s.report.value.failures == s.out.errs
    ensures s.hist.expired && !s.cancelled ==> s.report.Some? && s.report.value.grace
    ensures s.report.Some? ==> s.report.value.faults <= s.nested.errs && s.report.value.failures <= s.out.errs
    ensures s.report.Some? && s.report.value.outer ==> input.collects && s.cancelled && !s.report.value.grace
  {
    ReachableReport(input, s);
  }

  /** ForEach waits until its nested stopper or its own context is done.  It may then report
      the context's error exactly if that context is cancelled; it is sure to report it
      exactly if the cancellation has not reached the nested stopper yet, since otherwise
      the select may as well take the nested stopper's Done.  Whichever it takes, the report
      has all the errors and failures recorded so far. */
  lemma OuterIff(input: Input, s: World)
    requires Reachable(input, s) && input.collects && s.consumer.WaitDone?
    ensures ConsumeEnabled(input, s) <==> s.nested.ctxDone || s.cancelled
    ensures ConsumeEnabled(input, s) ==>
      && ((exists ans :: ReportsOuter(ConsumeStep(input, s, ans))) <==> s.cancelled)
      && ((forall ans :: ReportsOuter(ConsumeStep(input, s, ans))) <==> s.cancelled && !s.nested.ctxDone)
      && (forall ans :: ReportsRecorded(s, ConsumeStep(input, s, ans)))
  {
    if ConsumeEnabled(input, s) {
      assert ReportsOuter(ConsumeStep(input, s, Enough)) <==> s.cancelled;
      assert ReportsOuter(ConsumeStep(input, s, More)) <==> s.cancelled && !s.nested.ctxDone;
    }
  }

  /** The error that WaitCtx returned has the enclosing context's error in it. */
  predicate ReportsOuter(u: World) {
    u.report.Some? && u.report.value.outer
  }

  predicate ReportsRecorded(s: World, u: World) {
    if u.report.None? then s.nested.errs == [] && s.out.errs == []
    else u.report.value.faults == s.nested.errs && u.report.value.failures == s.out.errs
  }

  /** The outcome of an undisturbed run.  MapUnordered adds no extra element, and ForEach
      returns nil, exactly when no item failed in ForEach, no worker was refused, user code
      added no error, and no panic of the input was recorded; ForEach otherwise returns
      exactly the failures of the failing items with it. */
  lemma OutcomeWhenUndisturbed(input: Input, s: World)
    requires Reachable(input, s) && Waited(s) && !Disturbed(s) && SomeStarted(s)
    ensures Complete(input, s)
    ensures s.report == None <==>
      && !s.hist.refused && !s.hist.added && !(input.panics && Records(input))
      && (input.collects ==> Failing(input, AllResults(input)) == [])
    ensures s.report.Some? && input.collects ==>
      multiset(s.report.value.failures) == multiset(Failing(input, AllResults(input)))
  {
    ReachableReport(input, s);
    WaitedEnds(input, s);
    OutMeansComplete(input, s);
    if input.collects { SameEmpty(s.out.errs, Failing(input, AllResults(input))); }
  }

  lemma SameEmpty(xs: seq<Pair>, ys: seq<Pair>)
    requires multiset(xs) == multiset(ys)
    ensures xs == [] <==> ys == []
  {
    assert |multiset(xs)| == |xs| && |multiset(ys)| == |ys|;
  }
}
