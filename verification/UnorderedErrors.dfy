/**
  Which errors the unordered operators report: every error that has happened and that the
  error handler records, as often as it has happened.
 */
module UnorderedErrors {
  import opened Options
  import opened SeqStopper
  import opened Unordered
  import opened UnorderedPlaces
  import opened UnorderedLife
  import opened UnorderedReport

  /** The workers whose handler has still to be called with this error. */
  function Failing(workers: seq<Worker>, f: Fault): nat {
    if workers == [] then 0
    else Failing(workers[..|workers| - 1], f) + (if workers[|workers| - 1] == Failed(f) then 1 else 0)
  }

  /** The workers that Go has refused. */
  function Refusals(workers: seq<Worker>): nat {
    if workers == [] then 0
    else Refusals(workers[..|workers| - 1]) + (if workers[|workers| - 1].Refused? then 1 else 0)
  }

  lemma {:induction false} FailingUpdate(workers: seq<Worker>, w: nat, x: Worker, f: Fault)
    requires w < |workers|
    ensures Failing(workers[w := x], f)
            == Failing(workers, f) - (if workers[w] == Failed(f) then 1 else 0) + (if x == Failed(f) then 1 else 0)
    ensures workers[w] == Failed(f) ==> Failing(workers, f) > 0
  {
    var last := |workers| - 1;
    if w == last {
      assert workers[w := x][..last] == workers[..last];
    } else {
      assert workers[w := x][..last] == workers[..last][w := x];
      FailingUpdate(workers[..last], w, x, f);
    }
  }

  lemma {:induction false} RefusalsUpdate(workers: seq<Worker>, w: nat, x: Worker)
    requires w < |workers|
    ensures Refusals(workers[w := x])
            == Refusals(workers) - (if workers[w].Refused? then 1 else 0) + (if x.Refused? then 1 else 0)
  {
    var last := |workers| - 1;
    if w == last {
      assert workers[w := x][..last] == workers[..last];
    } else {
      assert workers[w := x][..last] == workers[..last][w := x];
      RefusalsUpdate(workers[..last], w, x);
    }
  }

  lemma {:induction false} NoneFailing(workers: seq<Worker>, f: Fault)
    requires Live(workers) == 0
    ensures Failing(workers, f) == 0
  {
    if workers != [] { NoneFailing(workers[..|workers| - 1], f); }
  }

  lemma {:induction false} NothingYet(workers: seq<Worker>, f: Fault)
    requires forall w :: 0 <= w < |workers| ==> workers[w].NotStarted?
    ensures Failing(workers, f) == 0 && Refusals(workers) == 0
  {
    if workers != [] { NothingYet(workers[..|workers| - 1], f); }
  }

  /** Errors of tasks go through the handler; the others are recorded directly. */
  predicate Recorded(input: Input, f: Fault) {
    f.StartRefused? || f.UserError? || Records(input)
  }

  /** How often Wait has to report an error, if all handlers have been called. */
  function Expected(input: Input, h: History, f: Fault): nat {
    if Recorded(input, f) then h.faults[f] else 0
  }

  /** Conservation: what has happened is recorded or in the hands of a handler. */
  ghost predicate Kept(input: Input, s: World, f: Fault) {
    && Failing(s.workers, f) <= s.hist.faults[f]
    && multiset(s.nested.errs)[f]
       == if Recorded(input, f) then s.hist.faults[f] - Failing(s.workers, f) else 0
  }

  function Reported(report: Option<Report>): seq<Fault> {
    if report.Some? then report.value.faults else []
  }

  ghost predicate ContentInv(input: Input, s: World) {
    && (!Ending(s.consumer) ==> forall f :: Kept(input, s, f))
    && (Waited(s) && SawAll(input, s) ==>
          forall f :: multiset(Reported(s.report))[f] == Expected(input, s.hist, f))
    && s.hist.faults[StartRefused] == Refusals(s.workers)
    && TaskFaults(s)
  }

  /** Only errors of tasks are in the hands of a handler. */
  ghost predicate TaskFaults(s: World) {
    forall w :: 0 <= w < |s.workers| && s.workers[w].Failed? ==>
      !s.workers[w].fault.StartRefused? && !s.workers[w].fault.UserError?
  }

  lemma Append(errs: seq<Fault>, e: Fault, f: Fault)
    ensures multiset(errs + [e])[f] == multiset(errs)[f] + (if e == f then 1 else 0)
  {
  }

  /** A worker's step fails with one error, or has one recorded, or neither. */
  ghost predicate OneFault(input: Input, s: World, u: World, w: nat)
    requires w < |s.workers|
  {
    && |u.workers| == |s.workers|
    && (u.workers[w].Failed? ==>
          && !s.workers[w].Failed? && !u.workers[w].fault.StartRefused? && !u.workers[w].fault.UserError?
          && u.hist.faults == s.hist.faults + multiset{u.workers[w].fault} && u.nested.errs == s.nested.errs)
    && (!u.workers[w].Failed? ==>
          && u.hist.faults == s.hist.faults
          && u.nested.errs == s.nested.errs + (if s.workers[w].Failed? && Records(input) then [s.workers[w].fault]
                                               else []))
  }

  lemma WorkFault(input: Input, s: World, w: nat, sel: Select)
    requires WorkEnabled(input, s, w, sel)
    ensures OneFault(input, s, WorkStep(input, s, w, sel), w)
  {
    if s.workers[w].Sending? { SendFault(input, s, w, sel); }
    else if Ended(s.workers[w]) { EndFault(input, s, w); }
    else { LoopFault(input, s, w); }
  }

  lemma SendFault(input: Input, s: World, w: nat, sel: Select)
    requires w < |s.workers| && s.workers[w].Sending?
    ensures OneFault(input, s, SendStep(input, s, w, sel), w)
  {
  }

  lemma EndFault(input: Input, s: World, w: nat)
    requires w < |s.workers| && Ended(s.workers[w])
    ensures OneFault(input, s, EndStep(input, s, w), w)
  {
  }

  lemma LoopFault(input: Input, s: World, w: nat)
    requires w < |s.workers| && Active(s.workers[w]) && !s.workers[w].Sending? && !Ended(s.workers[w])
    requires s.workers[w].Calling? ==> s.workers[w].item < |input.items|
    ensures OneFault(input, s, LoopStep(input, s, w), w)
  {
    if s.workers[w].Pulling? { PullFault(input, s, w); }
  }

  lemma PullFault(input: Input, s: World, w: nat)
    requires w < |s.workers| && s.workers[w].Pulling?
    ensures OneFault(input, s, LoopStep(input, s, w), w)
  {
  }

  /** Exactly when a worker's task fails, and with which error: at the head of its loop when
      the context is done, by sending on the closed channel, and by a pull that panics. */
  lemma WorkFailsIff(input: Input, s: World, w: nat, sel: Select)
    requires WorkEnabled(input, s, w, sel)
    ensures var u, x := WorkStep(input, s, w, sel), s.workers[w];
      && |u.workers| == |s.workers|
      && (u.workers[w] == Failed(ContextEnded) <==> x.Top? && s.nested.ctxDone)
      && (u.workers[w] == Failed(SendPanic) <==>
            x.Sending? && !input.collects && sel.SelSend? && s.out.closed)
      && (u.workers[w] == Failed(InputPanic) <==> x.Pulling? && PullPanics(input, s.pull))
      && (u.workers[w].Failed? <==> u.hist.faults != s.hist.faults)
  {
    WorkFault(input, s, w, sel);
    if s.workers[w].Sending? { SendFailsIff(input, s, w, sel); }
    else if !Ended(s.workers[w]) { LoopFailsIff(input, s, w); }
  }

  lemma SendFailsIff(input: Input, s: World, w: nat, sel: Select)
    requires WorkEnabled(input, s, w, sel) && s.workers[w].Sending?
    ensures var u := SendStep(input, s, w, sel);
      && |u.workers| == |s.workers|
      && (u.workers[w].Failed? <==> !input.collects && sel.SelSend? && s.out.closed)
      && (u.workers[w].Failed? ==> u.workers[w].fault == SendPanic)
  {
  }

  lemma LoopFailsIff(input: Input, s: World, w: nat)
    requires w < |s.workers| && Active(s.workers[w]) && !s.workers[w].Sending? && !Ended(s.workers[w])
    requires s.workers[w].Calling? ==> s.workers[w].item < |input.items|
    ensures var u, x := LoopStep(input, s, w), s.workers[w];
      && |u.workers| == |s.workers|
      && (u.workers[w] == Failed(ContextEnded) <==> x.Top? && s.nested.ctxDone)
      && (u.workers[w] == Failed(InputPanic) <==> x.Pulling? && PullPanics(input, s.pull))
      && u.workers[w] != Failed(SendPanic)
  {
  }

  lemma WorkKeeps(input: Input, s: World, w: nat, sel: Select, f: Fault)
    requires WorkEnabled(input, s, w, sel) && Kept(input, s, f) && TaskFaults(s)
    ensures Kept(input, WorkStep(input, s, w, sel), f)
  {
    var u := WorkStep(input, s, w, sel);
    WorkFrame(input, s, w, sel);
    WorkFault(input, s, w, sel);
    FailingUpdate(s.workers, w, u.workers[w], f);
    if s.workers[w].Failed? { Append(s.nested.errs, s.workers[w].fault, f); }
  }

  lemma WorkKeepsContent(input: Input, s: World, w: nat, sel: Select)
    requires Inv(input, s) && ContentInv(input, s) && WorkEnabled(input, s, w, sel)
    ensures ContentInv(input, WorkStep(input, s, w, sel))
  {
    var u := WorkStep(input, s, w, sel);
    WorkFrame(input, s, w, sel);
    WorkFault(input, s, w, sel);
    RefusalsUpdate(s.workers, w, u.workers[w]);
    if !Ending(s.consumer) {
      forall f ensures Kept(input, u, f) { WorkKeeps(input, s, w, sel, f); }
    } else {
      LiveMember(s.workers, w);
      if Waited(s) && SawAll(input, s) { SawAllEnds(input, s); }
    }
  }

  lemma SpawnKeeps(input: Input, s: World, f: Fault)
    requires s.consumer.Spawning? && s.consumer.k < |s.workers| && s.workers[s.consumer.k].NotStarted?
    requires Kept(input, s, f)
    ensures Kept(input, Spawn(s, s.consumer.k), f)
  {
    FailingUpdate(s.workers, s.consumer.k, Spawn(s, s.consumer.k).workers[s.consumer.k], f);
    Append(s.nested.errs, StartRefused, f);
  }

  lemma SpawnKeepsContent(input: Input, s: World)
    requires Inv(input, s) && ContentInv(input, s) && s.consumer.Spawning?
    ensures ContentInv(input, Spawn(s, s.consumer.k))
  {
    var k, u := s.consumer.k, Spawn(s, s.consumer.k);
    if k < |s.workers| {
      assert s.workers[k].NotStarted?;
      RefusalsUpdate(s.workers, k, u.workers[k]);
      forall f ensures Kept(input, u, f) {
        assert Kept(input, s, f);
        SpawnKeeps(input, s, f);
      }
    } else {
      forall f ensures Kept(input, u, f) { assert Kept(input, s, f); }
    }
  }

  /** Wait and WaitCtx report exactly what is recorded; nothing else but an expired grace
      period and, for WaitCtx, its context's error; and nothing at all only if there is none
      of these. */
  lemma WaitReportsAll(input: Input, s: World, ans: Answer)
    requires ConsumeEnabled(input, s) && s.consumer.WaitDone?
    ensures var r := ConsumeStep(input, s, ans).report;
      && (r.Some? ==> r.value.faults == s.nested.errs && r.value.failures == s.out.errs)
      && (r.Some? ==> (r.value.grace <==> s.nested.graceCause && !r.value.outer))
      && (r.None? ==> s.nested.errs == [] && s.out.errs == [] && !s.nested.graceCause)
      && (r.Some? ==> s.nested.errs != [] || s.out.errs != [] || r.value.grace || r.value.outer)
  {
  }

  lemma WaitContent(input: Input, s: World, ans: Answer)
    requires Inv(input, s) && ContentInv(input, s) && s.consumer.WaitDone? && ConsumeEnabled(input, s)
    ensures ContentInv(input, ConsumeStep(input, s, ans))
  {
    WaitReportsAll(input, s, ans);
    ConsumeHistory(input, s, ans);
    var u := ConsumeStep(input, s, ans);
    if SawAll(input, s) {
      SawAllEnds(input, s);
      forall f ensures multiset(Reported(u.report))[f] == Expected(input, u.hist, f) {
        NoneFailing(s.workers, f);
        assert Kept(input, s, f);
      }
    }
  }

  lemma ConsumeKeepsContent(input: Input, s: World, ans: Answer)
    requires Inv(input, s) && ContentInv(input, s) && ConsumeEnabled(input, s)
    ensures ContentInv(input, ConsumeStep(input, s, ans))
  {
    if s.consumer.Spawning? {
      SpawnKeepsContent(input, s);
    } else if s.consumer.WaitDone? {
      WaitContent(input, s, ans);
    } else {
      ConsumeHistory(input, s, ans);
      OtherConsume(input, s, ans);
      var u := ConsumeStep(input, s, ans);
      if !Ending(u.consumer) { forall f ensures Kept(input, u, f) { assert Kept(input, s, f); } }
    }
  }

  /** What the stopper and the environment do to the errors. */
  lemma OtherFaults(input: Input, s: World, l: Label)
    requires Enabled(input, s, l) && !l.Work? && !l.Consume?
    ensures var u := Step(input, s, l);
      && u.hist.broke == s.hist.broke && u.hist.threw == s.hist.threw
      && (if l.EnvError? && !Ending(s.consumer)
          then u.hist.faults == s.hist.faults + multiset{UserError} && u.nested.errs == s.nested.errs + [UserError]
          else u.hist.faults == s.hist.faults && (!Ending(s.consumer) ==> u.nested.errs == s.nested.errs))
  {
    if l.Finish? { assert FinishStep(s).hist == s.hist && FinishStep(s).nested.errs == s.nested.errs; }
    else if l.EnvExpire? { assert EnvStep(s, l).hist.faults == s.hist.faults; }
  }

  lemma OtherKeepsContent(input: Input, s: World, l: Label)
    requires Inv(input, s) && ContentInv(input, s) && Enabled(input, s, l) && !l.Work? && !l.Consume?
    ensures ContentInv(input, Step(input, s, l))
  {
    var u := Step(input, s, l);
    OtherErrors(input, s, l);
    OtherFaults(input, s, l);
    if !Ending(s.consumer) {
      forall f ensures Kept(input, u, f) {
        assert Kept(input, s, f);
        Append(s.nested.errs, UserError, f);
      }
    }
  }

  lemma StepKeepsContent(input: Input, s: World, l: Label)
    requires Inv(input, s) && ContentInv(input, s) && Enabled(input, s, l)
    ensures ContentInv(input, Step(input, s, l))
  {
    match l
    case Work(w, sel) => WorkKeepsContent(input, s, w, sel);
    case Consume(ans) => ConsumeKeepsContent(input, s, ans);
    case _ => OtherKeepsContent(input, s, l);
  }

  lemma {:induction false} RunKeepsContent(input: Input, s: World, ls: seq<Label>, u: World)
    requires Inv(input, s) && ContentInv(input, s) && IsRun(input, s, ls, u)
    ensures Inv(input, u) && ContentInv(input, u)
    decreases |ls|
  {
    if ls != [] {
      StepKeepsInv(input, s, ls[0]);
      StepKeepsContent(input, s, ls[0]);
      RunKeepsContent(input, Step(input, s, ls[0]), ls[1..], u);
    }
  }

  lemma InitContent(input: Input)
    ensures ContentInv(input, Init(input.workers))
  {
    var s := Init(input.workers);
    NothingYet(s.workers, StartRefused);
    forall f ensures Kept(input, s, f) { NothingYet(s.workers, f); }
  }

  /** What is reported when Wait has returned, unless a grace period expired first or WaitCtx
      was cut short: each error as often as it has happened before, except for errors of
      tasks under a handler that records none; in particular one ErrStopped for each worker
      that was refused; and the failures of all items. */
  lemma ReportContents(input: Input, s: World)
    requires Reachable(input, s) && Waited(s) && SawAll(input, s)
    ensures forall f :: multiset(Reported(s.report))[f] == Expected(input, s.hist, f)
    ensures multiset(Reported(s.report))[StartRefused] == Refusals(s.workers)
    ensures (if s.report.Some? then s.report.value.failures else []) == s.out.errs
  {
    var ls :| IsRun(input, Init(input.workers), ls, s);
    InitInv(input);
    InitContent(input);
    RunKeepsContent(input, Init(input.workers), ls, s);
    ReachableReport(input, s);
  }
}
