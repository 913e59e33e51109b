/**
  Which errors the extra element of ordered Map carries: every error that has happened and
  that the error handler records, as often as it has happened.
 */
module OrderedMapErrors {
  import opened Options
  import opened SeqStopper
  import opened OrderedMap
  import opened OrderedMapOrder
  import opened OrderedMapLife
  import opened OrderedMapExtra

  /** The workers whose handler has still to be called with this error. */
  function Failing(workers: seq<Worker>, f: Fault): nat {
    if workers == [] then 0
    else Failing(workers[..|workers| - 1], f) + (if workers[|workers| - 1] == Failed(f) then 1 else 0)
  }

  /** The workers that Go has refused. */
  function Refusals(workers: seq<Worker>): nat {
    if workers == [] then 0
    else Refusals(workers[..|workers| - 1]) + (if workers[|workers| - 1].Refused? then 1 else 0)
  }

  lemma {:induction false} FailingUpdate(workers: seq<Worker>, w: nat, x: Worker, f: Fault)
    requires w < |workers|
    ensures Failing(workers[w := x], f)
            == Failing(workers, f) - (if workers[w] == Failed(f) then 1 else 0) + (if x == Failed(f) then 1 else 0)
    ensures workers[w] == Failed(f) ==> Failing(workers, f) > 0
  {
    var last := |workers| - 1;
    if w == last {
      assert workers[w := x][..last] == workers[..last];
    } else {
      assert workers[w := x][..last] == workers[..last][w := x];
      FailingUpdate(workers[..last], w, x, f);
    }
  }

  lemma {:induction false} RefusalsUpdate(workers: seq<Worker>, w: nat, x: Worker)
    requires w < |workers|
    ensures Refusals(workers[w := x])
            == Refusals(workers) - (if workers[w].Refused? then 1 else 0) + (if x.Refused? then 1 else 0)
  {
    var last := |workers| - 1;
    if w == last {
      assert workers[w := x][..last] == workers[..last];
    } else {
      assert workers[w := x][..last] == workers[..last][w := x];
      RefusalsUpdate(workers[..last], w, x);
    }
  }

  lemma {:induction false} NoneFailing(workers: seq<Worker>, f: Fault)
    requires Live(workers) == 0
    ensures Failing(workers, f) == 0
  {
    if workers != [] {
      NoneFailing(workers[..|workers| - 1], f);
    }
  }

  lemma {:induction false} NothingYet(workers: seq<Worker>, f: Fault)
    requires forall w :: 0 <= w < |workers| ==> workers[w].NotStarted?
    ensures Failing(workers, f) == 0 && Refusals(workers) == 0
  {
    if workers != [] { NothingYet(workers[..|workers| - 1], f); }
  }

  /** Errors of tasks go through the handler; the others are recorded directly. */
  predicate Recorded(input: Input, f: Fault) {
    f.StartRefused? || f.UserError? || Records(input)
  }

  /** How often Wait has to report an error, if all handlers have been called. */
  function Expected(input: Input, h: History, f: Fault): nat {
    if Recorded(input, f) then h.faults[f] else 0
  }

  /** Conservation: what has happened is recorded or in the hands of a handler. */
  ghost predicate Kept(input: Input, s: World, f: Fault) {
    && Failing(s.workers, f) <= s.hist.faults[f]
    && multiset(s.nested.errs)[f]
       == if Recorded(input, f) then s.hist.faults[f] - Failing(s.workers, f) else 0
  }

  function Reported(extra: Option<Report>): seq<Fault> {
    if extra.Some? then extra.value.errs else []
  }

  ghost predicate ContentInv(input: Input, s: World) {
    && (!Ending(s.consumer) ==> forall f :: Kept(input, s, f))
    && (Waited(s) && !s.hist.expired ==>
          forall f :: multiset(Reported(s.extra))[f] == Expected(input, s.hist, f))
    && s.hist.faults[StartRefused] == Refusals(s.workers)
  }

  lemma Append(errs: seq<Fault>, e: Fault, f: Fault)
    ensures multiset(errs + [e])[f] == multiset(errs)[f] + (if e == f then 1 else 0)
  {
  }

  /** A worker's step fails with one error, or has one recorded, or neither. */
  lemma WorkFault(input: Input, s: World, w: nat, sel: Select)
    requires WorkEnabled(input, s, w, sel)
    ensures var u, x := WorkStep(input, s, w, sel), s.workers[w];
      && |u.workers| == |s.workers|
      && (u.workers[w].Failed? ==>
            && !x.Failed? && !u.workers[w].fault.StartRefused?
            && u.hist.faults == s.hist.faults + multiset{u.workers[w].fault} && u.nested.errs == s.nested.errs)
      && (!u.workers[w].Failed? ==>
            && u.hist.faults == s.hist.faults
            && u.nested.errs == s.nested.errs + (if x.Failed? && Records(input) then [x.fault] else []))
  {
    if s.workers[w].Holding? {
      SelectFault(s, w, sel);
    } else if Ended(s.workers[w]) {
      EndFault(input, s, w);
    } else {
      LoopFault(input, s, w, sel);
    }
  }

  lemma SelectFault(s: World, w: nat, sel: Select)
    requires w < |s.workers| && s.workers[w].Holding?
    ensures var u := AtSelect(s, w, s.workers[w].i, s.workers[w].item, sel);
      && |u.workers| == |s.workers| && u.nested.errs == s.nested.errs
      && (u.workers[w].Failed? ==>
            u.workers[w].fault == SendPanic && u.hist.faults == s.hist.faults + multiset{SendPanic})
      && (!u.workers[w].Failed? ==> u.hist.faults == s.hist.faults)
  {
  }

  lemma EndFault(input: Input, s: World, w: nat)
    requires w < |s.workers| && Ended(s.workers[w])
    ensures var u, x := EndStep(input, s, w), s.workers[w];
      && |u.workers| == |s.workers| && !u.workers[w].Failed? && u.hist == s.hist
      && u.nested.errs == s.nested.errs + (if x.Failed? && Records(input) then [x.fault] else [])
  {
  }

  lemma LoopFault(input: Input, s: World, w: nat, sel: Select)
    requires WorkEnabled(input, s, w, sel) && !s.workers[w].Holding? && !Ended(s.workers[w])
    ensures var u := LoopStep(input, s, w, sel);
      && |u.workers| == |s.workers| && u.nested.errs == s.nested.errs
      && (u.workers[w].Failed? ==>
            (u.workers[w].fault == ContextEnded || u.workers[w].fault == InputPanic)
            && u.hist.faults == s.hist.faults + multiset{u.workers[w].fault})
      && (!u.workers[w].Failed? ==> u.hist.faults == s.hist.faults)
  {
  }

  /** Exactly when a worker's task fails, and with which error: at the head of its loop when
      the context is done, by sending on the closed channel, and by a pull that panics. */
  lemma WorkFailsIff(input: Input, s: World, w: nat, sel: Select)
    requires WorkEnabled(input, s, w, sel)
    ensures var u, x := WorkStep(input, s, w, sel), s.workers[w];
      && |u.workers| == |s.workers|
      && (u.workers[w] == Failed(ContextEnded) <==> x.Top? && s.nested.ctxDone)
      && (u.workers[w] == Failed(SendPanic) <==> x.Holding? && sel.SelSend? && s.chans.closed)
      && (u.workers[w] == Failed(InputPanic) <==> x.Locking? && PullPanics(input, s.pull))
      && (u.workers[w].Failed? <==> u.hist.faults != s.hist.faults)
  {
    WorkFault(input, s, w, sel);
    if !s.workers[w].Holding? && !Ended(s.workers[w]) { LoopFailsIff(input, s, w, sel); }
  }

  lemma LoopFailsIff(input: Input, s: World, w: nat, sel: Select)
    requires WorkEnabled(input, s, w, sel) && !s.workers[w].Holding? && !Ended(s.workers[w])
    ensures var u, x := LoopStep(input, s, w, sel), s.workers[w];
      && |u.workers| == |s.workers|
      && (u.workers[w] == Failed(ContextEnded) <==> x.Top? && s.nested.ctxDone)
      && (u.workers[w] == Failed(InputPanic) <==> x.Locking? && PullPanics(input, s.pull))
      && u.workers[w] != Failed(SendPanic)
  {
  }

  /** Only errors of tasks are in the hands of a handler. */
  ghost predicate TaskFaults(s: World) {
    forall w :: 0 <= w < |s.workers| && s.workers[w].Failed? ==>
      !s.workers[w].fault.StartRefused? && !s.workers[w].fault.UserError?
  }

  lemma WorkKeeps(input: Input, s: World, w: nat, sel: Select, f: Fault)
    requires WorkEnabled(input, s, w, sel) && Kept(input, s, f) && TaskFaults(s)
    ensures Kept(input, WorkStep(input, s, w, sel), f)
  {
    var u := WorkStep(input, s, w, sel);
    WorkFrame(input, s, w, sel);
    WorkFault(input, s, w, sel);
    FailingUpdate(s.workers, w, u.workers[w], f);
    if s.workers[w].Failed? { Append(s.nested.errs, s.workers[w].fault, f); }
  }

  lemma WorkTaskFaults(input: Input, s: World, w: nat, sel: Select)
    requires WorkEnabled(input, s, w, sel) && TaskFaults(s)
    ensures TaskFaults(WorkStep(input, s, w, sel))
  {
    WorkFrame(input, s, w, sel);
    WorkFaultKind(input, s, w, sel);
  }

  lemma WorkFaultKind(input: Input, s: World, w: nat, sel: Select)
    requires WorkEnabled(input, s, w, sel)
    ensures var u := WorkStep(input, s, w, sel);
      |u.workers| == |s.workers| &&
      (u.workers[w].Failed? ==> !u.workers[w].fault.StartRefused? && !u.workers[w].fault.UserError?)
  {
    if s.workers[w].Holding? { SelectFault(s, w, sel); }
    else if Ended(s.workers[w]) { EndFault(input, s, w); }
    else { LoopFault(input, s, w, sel); }
  }

  lemma WorkKeepsContent(input: Input, s: World, w: nat, sel: Select)
    requires Inv(input, s) && ContentInv(input, s) && TaskFaults(s) && WorkEnabled(input, s, w, sel)
    ensures ContentInv(input, WorkStep(input, s, w, sel))
  {
    var u := WorkStep(input, s, w, sel);
    WorkFrame(input, s, w, sel);
    WorkStops(input, s, w, sel);
    WorkFault(input, s, w, sel);
    RefusalsUpdate(s.workers, w, u.workers[w]);
    if !Ending(s.consumer) {
      forall f ensures Kept(input, u, f) { WorkKeeps(input, s, w, sel, f); }
    } else {
      LiveMember(s.workers, w);
    }
  }

  lemma SpawnKeeps(input: Input, s: World, f: Fault)
    requires s.consumer.Spawning? && s.consumer.k < |s.workers| && s.workers[s.consumer.k].NotStarted?
    requires Kept(input, s, f)
    ensures Kept(input, Spawn(s, s.consumer.k), f)
  {
    FailingUpdate(s.workers, s.consumer.k, Spawn(s, s.consumer.k).workers[s.consumer.k], f);
    Append(s.nested.errs, StartRefused, f);
  }

  lemma SpawnKeepsContent(input: Input, s: World)
    requires Inv(input, s) && ContentInv(input, s) && TaskFaults(s) && s.consumer.Spawning?
    ensures ContentInv(input, Spawn(s, s.consumer.k)) && TaskFaults(Spawn(s, s.consumer.k))
  {
    var k, u := s.consumer.k, Spawn(s, s.consumer.k);
    if k < |s.workers| {
      assert s.workers[k].NotStarted?;
      RefusalsUpdate(s.workers, k, u.workers[k]);
      forall f ensures Kept(input, u, f) {
        assert Kept(input, s, f);
        SpawnKeeps(input, s, f);
      }
    } else {
      forall f ensures Kept(input, u, f) { assert Kept(input, s, f); }
    }
  }

  /** Wait reports exactly what is recorded, and nothing if nothing is. */
  lemma WaitReportsAll(s: World, ans: Answer)
    requires ConsumeEnabled(s) && s.consumer.WaitDone?
    ensures var extra := ConsumeStep(s, ans).extra;
      && (extra.None? <==> s.nested.errs == [] && !s.nested.graceCause)
      && (extra.Some? ==> extra.value.errs == s.nested.errs && extra.value.grace == s.nested.graceCause)
  {
  }

  lemma WaitContent(input: Input, s: World, ans: Answer)
    requires Inv(input, s) && ContentInv(input, s) && s.consumer.WaitDone? && ConsumeEnabled(s)
    ensures ContentInv(input, ConsumeStep(s, ans))
  {
    WaitReportsAll(s, ans);
    var u := ConsumeStep(s, ans);
    if !s.hist.expired {
      forall f ensures multiset(Reported(u.extra))[f] == Expected(input, u.hist, f) {
        NoneFailing(s.workers, f);
        assert Kept(input, s, f);
      }
    }
  }

  lemma ConsumeKeepsContent(input: Input, s: World, ans: Answer)
    requires Inv(input, s) && ContentInv(input, s) && TaskFaults(s) && ConsumeEnabled(s)
    ensures ContentInv(input, ConsumeStep(s, ans)) && TaskFaults(ConsumeStep(s, ans))
  {
    if s.consumer.Spawning? {
      SpawnKeepsContent(input, s);
    } else {
      LeaveWorkers(s, ans);
      ConsumeHistory(s, ans);
      if s.consumer.WaitDone? {
        WaitContent(input, s, ans);
      } else {
        OtherConsume(s, ans);
        var u := ConsumeStep(s, ans);
        if !Ending(u.consumer) { forall f ensures Kept(input, u, f) { assert Kept(input, s, f); } }
      }
    }
  }

  /** What the stopper and the environment do to the errors. */
  lemma OtherFaults(input: Input, s: World, l: Label)
    requires Enabled(input, s, l) && !l.Work? && !l.Consume?
    ensures var u := Step(input, s, l);
      && u.workers == s.workers && u.extra == s.extra && u.consumer == s.consumer
      && u.hist.broke == s.hist.broke && u.hist.threw == s.hist.threw
      && (u.hist.expired != s.hist.expired ==> u.hist.expired)
      && (if l.EnvError? && !Ending(s.consumer)
          then u.hist.faults == s.hist.faults + multiset{UserError} && u.nested.errs == s.nested.errs + [UserError]
          else u.hist.faults == s.hist.faults && (!Ending(s.consumer) ==> u.nested.errs == s.nested.errs))
  {
  }

  lemma OtherKeepsContent(input: Input, s: World, l: Label)
    requires Inv(input, s) && ContentInv(input, s) && Enabled(input, s, l) && !l.Work? && !l.Consume?
    ensures ContentInv(input, Step(input, s, l))
  {
    var u := Step(input, s, l);
    OtherFaults(input, s, l);
    if !Ending(s.consumer) {
      forall f ensures Kept(input, u, f) {
        assert Kept(input, s, f);
        Append(s.nested.errs, UserError, f);
      }
    }
  }

  lemma StepKeepsContent(input: Input, s: World, l: Label)
    requires Inv(input, s) && ContentInv(input, s) && TaskFaults(s) && Enabled(input, s, l)
    ensures ContentInv(input, Step(input, s, l)) && TaskFaults(Step(input, s, l))
  {
    match l
    case Work(w, sel) => WorkKeepsContent(input, s, w, sel); WorkTaskFaults(input, s, w, sel);
    case Consume(ans) => ConsumeKeepsContent(input, s, ans);
    case _ => OtherKeepsContent(input, s, l); OtherFaults(input, s, l);
  }

  lemma {:induction false} RunKeepsContent(input: Input, s: World, ls: seq<Label>, u: World)
    requires Inv(input, s) && ContentInv(input, s) && TaskFaults(s) && IsRun(input, s, ls, u)
    ensures Inv(input, u) && ContentInv(input, u)
    decreases |ls|
  {
    if ls != [] {
      StepKeepsInv(input, s, ls[0]);
      StepKeepsContent(input, s, ls[0]);
      RunKeepsContent(input, Step(input, s, ls[0]), ls[1..], u);
    }
  }

  lemma ReachableContent(input: Input, s: World)
    requires Reachable(input, s)
    ensures Inv(input, s) && ContentInv(input, s)
  {
    var ls :| IsRun(input, Init(input.workers), ls, s);
    InitInv(input);
    InitContent(input);
    RunKeepsContent(input, Init(input.workers), ls, s);
  }

  lemma InitContent(input: Input)
    ensures ContentInv(input, Init(input.workers)) && TaskFaults(Init(input.workers))
  {
    var s := Init(input.workers);
    NothingYet(s.workers, StartRefused);
    forall f ensures Kept(input, s, f) { NothingYet(s.workers, f); }
  }

  /** What the extra element carries when Wait has returned, unless a grace period expired
      first: each error as often as it has happened before, except for errors of tasks
      under a handler that records none; in particular one ErrStopped for each worker that
      was refused. */
  lemma ExtraContents(input: Input, s: World)
    requires Reachable(input, s) && Waited(s) && !s.hist.expired
    ensures forall f :: multiset(Reported(s.extra))[f] == Expected(input, s.hist, f)
    ensures multiset(Reported(s.extra))[StartRefused] == Refusals(s.workers)
    ensures s.extra.Some? ==> s.extra.value.grace == s.nested.graceCause
  {
    ReachableContent(input, s);
    ReachableExtra(input, s);
  }

  /** In an undisturbed run these are the refusals, the errors that user code added, and the
      input's panic. */
  lemma ContentsWhenUndisturbed(input: Input, s: World)
    requires Reachable(input, s) && Waited(s) && !Disturbed(s) && SomeStarted(s)
    ensures var got := multiset(Reported(s.extra));
      && got[StartRefused] == Refusals(s.workers) && got[UserError] == s.hist.faults[UserError]
      && got[SendPanic] == 0 && got[ContextEnded] == 0
      && (got[InputPanic] > 0 <==> input.panics && Records(input))
  {
    ReachableContent(input, s);
    ReachableFaults(input, s);
    DrainedEnds(input, s);
  }

  /** Where the errors of tasks come from. */
  ghost predicate FaultReasons(input: Input, s: World) {
    && (s.hist.faults[SendPanic] > 0 || s.hist.faults[ContextEnded] > 0 ==> s.hist.cancelled || s.hist.expired)
    && (s.hist.faults[InputPanic] > 0 ==> input.panics)
    && (s.hist.failed <==>
          s.hist.faults[SendPanic] + s.hist.faults[ContextEnded] + s.hist.faults[InputPanic] > 0)
  }

  lemma WorkReason(input: Input, s: World, w: nat, sel: Select)
    requires WorkEnabled(input, s, w, sel)
    ensures var u := WorkStep(input, s, w, sel);
      && |u.workers| == |s.workers|
      && (u.workers[w].Failed? ==>
            && u.hist.failed && !u.workers[w].fault.UserError? && !u.workers[w].fault.StartRefused?
            && (u.workers[w].fault == InputPanic ==> input.panics)
            && (u.workers[w].fault != InputPanic ==> s.nested.ctxDone || s.chans.closed))
      && (!u.workers[w].Failed? ==> u.hist.failed == s.hist.failed)
  {
    if s.workers[w].Holding? { SelectHistory(s, w, sel); }
    else if !Ended(s.workers[w]) { LoopReason(input, s, w, sel); }
  }

  lemma LoopReason(input: Input, s: World, w: nat, sel: Select)
    requires WorkEnabled(input, s, w, sel) && !s.workers[w].Holding? && !Ended(s.workers[w])
    ensures var u := LoopStep(input, s, w, sel);
      && |u.workers| == |s.workers|
      && (u.workers[w].Failed? ==>
            && u.hist.failed && (u.workers[w].fault == InputPanic || u.workers[w].fault == ContextEnded)
            && (u.workers[w].fault == InputPanic ==> input.panics)
            && (u.workers[w].fault == ContextEnded ==> s.nested.ctxDone))
      && (!u.workers[w].Failed? ==> u.hist.failed == s.hist.failed)
  {
  }

  lemma WorkKeepsReason(input: Input, s: World, w: nat, sel: Select)
    requires Inv(input, s) && FaultReasons(input, s) && WorkEnabled(input, s, w, sel)
    ensures FaultReasons(input, WorkStep(input, s, w, sel))
  {
    WorkFrame(input, s, w, sel);
    WorkFault(input, s, w, sel);
    WorkReason(input, s, w, sel);
    ActiveMeansDisturbed(s, w);
  }

  lemma StepKeepsReason(input: Input, s: World, l: Label)
    requires Inv(input, s) && FaultReasons(input, s) && Enabled(input, s, l)
    ensures FaultReasons(input, Step(input, s, l))
  {
    match l
    case Work(w, sel) => WorkKeepsReason(input, s, w, sel);
    case Consume(ans) => if !s.consumer.Spawning? { ConsumeHistory(s, ans); }
    case _ => OtherFaults(input, s, l);
  }

  lemma {:induction false} RunKeepsReason(input: Input, s: World, ls: seq<Label>, u: World)
    requires Inv(input, s) && FaultReasons(input, s) && IsRun(input, s, ls, u)
    ensures FaultReasons(input, u)
    decreases |ls|
  {
    if ls != [] {
      StepKeepsInv(input, s, ls[0]);
      StepKeepsReason(input, s, ls[0]);
      RunKeepsReason(input, Step(input, s, ls[0]), ls[1..], u);
    }
  }

  lemma ReachableFaults(input: Input, s: World)
    requires Reachable(input, s)
    ensures FaultReasons(input, s)
  {
    var ls :| IsRun(input, Init(input.workers), ls, s);
    InitInv(input);
    RunKeepsReason(input, Init(input.workers), ls, s);
  }
}
