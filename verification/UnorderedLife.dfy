/**
  The nested stopper and the consumer of the unordered operators through a whole run, and
  what they report at its end.
 */
module UnorderedLife {
  import opened SeqStopper
  import opened Unordered
  import opened UnorderedPlaces

  lemma {:induction false} LiveUpdate(workers: seq<Worker>, w: nat, x: Worker)
    requires w < |workers|
    ensures Live(workers[w := x])
            == Live(workers) - (if Active(workers[w]) then 1 else 0) + (if Active(x) then 1 else 0)
  {
    var last := |workers| - 1;
    if w == last {
      assert workers[w := x][..last] == workers[..last];
    } else {
      assert workers[w := x][..last] == workers[..last][w := x];
      LiveUpdate(workers[..last], w, x);
    }
  }

  lemma {:induction false} LiveMember(workers: seq<Worker>, w: nat)
    requires w < |workers| && Active(workers[w])
    ensures Live(workers) > 0
  {
    if w < |workers| - 1 { LiveMember(workers[..|workers| - 1], w); }
  }

  lemma {:induction false} LiveWitness(workers: seq<Worker>) returns (w: nat)
    requires Live(workers) > 0
    ensures w < |workers| && Active(workers[w])
  {
    var last := |workers| - 1;
    if Active(workers[last]) { w := last; }
    else { w := LiveWitness(workers[..last]); }
  }

  lemma {:induction false} LiveNone(workers: seq<Worker>)
    requires forall w :: 0 <= w < |workers| ==> !Active(workers[w])
    ensures Live(workers) == 0
  {
    if workers != [] { LiveNone(workers[..|workers| - 1]); }
  }

  /** Something other than the end of the input ended the run, or may have. */
  predicate Disturbed(s: World) {
    s.cancelled || s.hist.broke || s.hist.threw || s.hist.expired
  }

  ghost predicate NestedOk(s: World) {
    var n, live := s.nested, Live(s.workers);
    && (!n.phase.Armed? ==> n.stopping && (s.hist.expired || live == 0))
    && ((n.stopping || n.onIdle) && live == 0 ==> !n.phase.Armed?)
    && (n.phase.Over? ==> n.ctxDone)
    && (n.ctxDone ==> s.cancelled || n.phase.Over?)
    && n.grace == s.hist.expired && (n.grace ==> !n.phase.Armed?)
    && (!s.cancelled ==> n.graceCause == (n.ctxDone && n.grace))
  }

  ghost predicate ClosedOk(input: Input, s: World) {
    var n := s.nested;
    && (s.out.closed ==> !n.phase.Armed?)
    && (s.consumer.Setup? || input.collects ==> !n.registered && !s.out.closed)
    && (!input.collects && !s.consumer.Setup? && (n.phase.Closing? || n.phase.Over? || !n.registered) ==>
          s.out.closed)
  }

  /** The consumer is past Wait. */
  predicate Waited(s: World) {
    Ending(s.consumer) && !s.hist.broke && !s.hist.threw
  }

  ghost predicate LoopOk(input: Input, s: World) {
    var c := s.consumer;
    && (c.Setup? || c.Spawning? || c.CallIdle? <==> !s.nested.onIdle)
    && (s.hist.broke <==> c.Breaking? || (Ending(c) && s.out.earlyBreak))
    && (s.hist.threw ==> Ending(c) && !s.out.earlyBreak)
    && (s.out.earlyBreak ==> Ending(c))
    && (!input.collects && (c.WaitDone? || Waited(s)) ==> s.out.closed && s.out.queue == [])
    && (input.collects ==> !c.Breaking? && !s.hist.broke && !s.hist.threw)
    && (Waited(s) ==> s.nested.ctxDone || (input.collects && s.cancelled))
    && (c.Unpull? || c.Finished? ==> s.nested.stopping)
    && (s.pull.closed <==> c.Finished?)
  }

  predicate Done(x: Worker) {
    x.Failed? || x.Halting? || x.Leaving? || x.Exited?
  }

  ghost predicate ReasonOk(input: Input, s: World) {
    && (s.out.dropped != [] ==> Disturbed(s))
    && (!Disturbed(s) ==>
          forall w :: 0 <= w < |s.workers| && Done(s.workers[w]) ==>
            s.pull.pos == |input.items| && (input.panics ==> s.hist.failed))
    && (s.hist.failed ==> s.cancelled || s.hist.expired || input.panics)
    && (s.pull.jammed ==> !s.pull.closed && input.panics && s.pull.pos == |input.items|)
    && (!Disturbed(s) && s.hist.failed ==> s.pull.jammed)
    && (forall w :: 0 <= w < |s.workers| && (s.workers[w].Failed? || s.workers[w].Halting?) ==> s.hist.failed)
  }

  ghost predicate RefusedOk(s: World) {
    s.hist.refused <==> exists w :: 0 <= w < |s.workers| && s.workers[w].Refused?
  }

  ghost predicate Inv(input: Input, s: World) {
    && BaseInv(input, s) && NestedOk(s) && ClosedOk(input, s) && LoopOk(input, s)
    && ReasonOk(input, s) && RefusedOk(s)
  }

  lemma InitInv(input: Input)
    ensures Inv(input, Init(input.workers))
  {
    InitPlaces(input);
    LiveNone(Init(input.workers).workers);
  }

  // Steps of a worker.

  lemma WorkActive(input: Input, s: World, w: nat, sel: Select)
    requires WorkEnabled(input, s, w, sel)
    ensures var u := WorkStep(input, s, w, sel);
      |u.workers| == |s.workers| && (Active(u.workers[w]) <==> !s.workers[w].Leaving?)
  {
  }

  lemma WorkLive(input: Input, s: World, w: nat, sel: Select)
    requires WorkEnabled(input, s, w, sel)
    ensures Live(s.workers) > 0
    ensures Live(WorkStep(input, s, w, sel).workers) == Live(s.workers) - (if s.workers[w].Leaving? then 1 else 0)
  {
    LiveMember(s.workers, w);
    WorkFrame(input, s, w, sel);
    WorkActive(input, s, w, sel);
    LiveUpdate(s.workers, w, WorkStep(input, s, w, sel).workers[w]);
  }

  /** A worker touches the nested stopper only by its error, by the handler's Stop, and by
      being the last to go. */
  lemma WorkStops(input: Input, s: World, w: nat, sel: Select)
    requires WorkEnabled(input, s, w, sel)
    ensures var n, u := s.nested, WorkStep(input, s, w, sel);
      match s.workers[w]
      case Leaving => u.nested == Settle(n, Live(u.workers))
      case Halting => u.nested == Settle(n.(stopping := true), Live(s.workers))
      case Failed(_) => u.nested == n.(errs := u.nested.errs) && n.errs <= u.nested.errs
      case _ => u.nested == n
  {
    if !Ended(s.workers[w]) && !s.workers[w].Sending? { LoopFrame(input, s, w); }
  }

  lemma WorkKeepsStops(input: Input, s: World, w: nat, sel: Select)
    requires Inv(input, s) && WorkEnabled(input, s, w, sel)
    ensures var u := WorkStep(input, s, w, sel);
      NestedOk(u) && ClosedOk(input, u)
  {
    WorkLive(input, s, w, sel);
    WorkFrame(input, s, w, sel);
    WorkStops(input, s, w, sel);
  }

  /** An active worker finds its context done, the results closed, an early break or the
      puller stopped only in a disturbed run. */
  lemma ActiveMeansDisturbed(input: Input, s: World, w: nat)
    requires Inv(input, s) && w < |s.workers| && Active(s.workers[w])
    ensures s.nested.ctxDone || s.out.closed || s.out.earlyBreak || s.pull.closed ==> Disturbed(s)
    ensures s.nested.ctxDone || s.out.closed ==> s.cancelled || s.hist.expired
  {
    LiveMember(s.workers, w);
  }

  lemma WorkKeepsLoop(input: Input, s: World, w: nat, sel: Select)
    requires Inv(input, s) && WorkEnabled(input, s, w, sel)
    ensures LoopOk(input, WorkStep(input, s, w, sel))
  {
    LiveMember(s.workers, w);
    WorkFrame(input, s, w, sel);
    WorkStops(input, s, w, sel);
    WorkQueue(input, s, w, sel);
  }

  lemma WorkQueue(input: Input, s: World, w: nat, sel: Select)
    requires WorkEnabled(input, s, w, sel)
    ensures s.out.closed ==> WorkStep(input, s, w, sel).out.queue == s.out.queue
  {
    if Ended(s.workers[w]) { EndFrame(input, s, w); }
    else if !s.workers[w].Sending? { LoopFrame(input, s, w); }
  }

  /** Why a worker drops a result, fails, jams the mutex, or is done. */
  lemma WorkReasons(input: Input, s: World, w: nat, sel: Select)
    requires Inv(input, s) && WorkEnabled(input, s, w, sel)
    ensures var u := WorkStep(input, s, w, sel);
      var pulls := s.workers[w].Pulling? && PullPanics(input, s.pull);
      && |u.workers| == |s.workers|
      && (u.out.dropped != s.out.dropped ==> s.out.earlyBreak || s.nested.ctxDone || s.out.closed)
      && (u.hist.failed && !s.hist.failed ==> s.nested.ctxDone || s.out.closed || pulls)
      && (u.pull.jammed <==> s.pull.jammed || pulls) && (pulls ==> u.hist.failed)
      && (Done(u.workers[w]) ==>
            Done(s.workers[w]) || s.nested.ctxDone || s.out.closed || s.out.earlyBreak || s.pull.closed
            || (s.pull.pos == |input.items| && (input.panics ==> pulls)))
      && (u.workers[w].Failed? || u.workers[w].Halting? ==> u.hist.failed)
  {
    if s.workers[w].Pulling? { PullReasons(input, s, w); }
    else if s.workers[w].Sending? { SendReasons(input, s, w, sel); }
  }

  lemma SendReasons(input: Input, s: World, w: nat, sel: Select)
    requires WorkEnabled(input, s, w, sel) && s.workers[w].Sending?
    ensures var u := SendStep(input, s, w, sel);
      && |u.workers| == |s.workers| && u.pull == s.pull && !u.workers[w].Halting?
      && (u.out.dropped != s.out.dropped ==> s.out.earlyBreak || s.nested.ctxDone || s.out.closed)
      && (u.hist.failed && !s.hist.failed ==> s.out.closed)
      && (Done(u.workers[w]) ==> s.out.closed || s.out.earlyBreak)
      && (u.workers[w].Failed? ==> u.hist.failed)
  {
  }

  lemma PullReasons(input: Input, s: World, w: nat)
    requires PullerOk(input, s.pull) && w < |s.workers| && s.workers[w].Pulling?
    ensures var u := LoopStep(input, s, w);
      && |u.workers| == |s.workers| && u.out == s.out
      && (u.pull.jammed <==> s.pull.jammed || PullPanics(input, s.pull))
      && (u.hist.failed <==> s.hist.failed || PullPanics(input, s.pull))
      && (u.workers[w].Failed? <==> PullPanics(input, s.pull)) && !u.workers[w].Halting?
      && (Done(u.workers[w]) ==> s.pull.closed || s.pull.pos == |input.items|)
      && (input.panics && Done(u.workers[w]) ==> s.pull.closed || PullPanics(input, s.pull))
  {
  }

  lemma WorkKeepsReasons(input: Input, s: World, w: nat, sel: Select)
    requires Inv(input, s) && WorkEnabled(input, s, w, sel)
    requires WorkStep(input, s, w, sel).pull.pos <= |input.items|
    ensures ReasonOk(input, WorkStep(input, s, w, sel))
  {
    ActiveMeansDisturbed(input, s, w);
    WorkFrame(input, s, w, sel);
    WorkReasons(input, s, w, sel);
  }

  lemma WorkKeepsRefused(input: Input, s: World, w: nat, sel: Select)
    requires RefusedOk(s) && WorkEnabled(input, s, w, sel)
    ensures RefusedOk(WorkStep(input, s, w, sel))
  {
    WorkFrame(input, s, w, sel);
    var u := WorkStep(input, s, w, sel);
    if v :| 0 <= v < |s.workers| && s.workers[v].Refused? { assert u.workers[v].Refused?; }
  }

  // The other steps.

  lemma SpawnKeepsLife(input: Input, s: World)
    requires Inv(input, s) && s.consumer.Spawning?
    ensures var u := Spawn(s, s.consumer.k);
      NestedOk(u) && ClosedOk(input, u) && LoopOk(input, u) && ReasonOk(input, u)
  {
    var k := s.consumer.k;
    if k < |s.workers| {
      assert s.workers[k].NotStarted?;
      LiveUpdate(s.workers, k, Spawn(s, k).workers[k]);
    }
  }

  lemma SpawnKeepsRefused(s: World)
    requires SpawnOk(s) && RefusedOk(s) && s.consumer.Spawning?
    ensures RefusedOk(Spawn(s, s.consumer.k))
  {
    var k, u := s.consumer.k, Spawn(s, s.consumer.k);
    if k < |s.workers| {
      assert s.workers[k].NotStarted?;
      if v :| 0 <= v < |s.workers| && s.workers[v].Refused? { assert u.workers[v].Refused?; }
      if u.workers[k].Refused? { assert u.hist.refused; }
    }
  }

  lemma ConsumeKeepsStops(input: Input, s: World, ans: Answer)
    requires Inv(input, s) && ConsumeEnabled(input, s) && !s.consumer.Spawning?
    ensures var u := ConsumeStep(input, s, ans);
      NestedOk(u) && ClosedOk(input, u)
  {
    ConsumeWorkers(input, s, ans);
  }

  lemma ConsumeKeepsLoop(input: Input, s: World, ans: Answer)
    requires Inv(input, s) && ConsumeEnabled(input, s) && !s.consumer.Spawning?
    ensures LoopOk(input, ConsumeStep(input, s, ans))
  {
  }

  /** What the consumer's steps, other than starting workers, do to the history. */
  lemma ConsumeHistory(input: Input, s: World, ans: Answer)
    requires ConsumeEnabled(input, s) && !s.consumer.Spawning?
    ensures var u := ConsumeStep(input, s, ans);
      && u.workers == s.workers && u.cancelled == s.cancelled && u.out.dropped == s.out.dropped
      && u.out.errs == s.out.errs
      && u.hist.(broke := s.hist.broke, threw := s.hist.threw) == s.hist
      && (s.hist.broke ==> u.hist.broke) && (s.hist.threw ==> u.hist.threw)
      && (u.pull == s.pull || (s.consumer.Unpull? && u.pull == s.pull.(closed := true)))
  {
    if !s.consumer.Yielding? { assert ConsumeStep(input, s, ans).hist == s.hist; }
  }

  lemma ConsumeKeepsReasons(input: Input, s: World, ans: Answer)
    requires Inv(input, s) && ConsumeEnabled(input, s) && !s.consumer.Spawning?
    ensures ReasonOk(input, ConsumeStep(input, s, ans)) && RefusedOk(ConsumeStep(input, s, ans))
  {
    ConsumeHistory(input, s, ans);
  }

  lemma OtherKeepsNested(input: Input, s: World, l: Label)
    requires Inv(input, s) && Enabled(input, s, l) && !l.Work? && !l.Consume?
    ensures NestedOk(Step(input, s, l)) && ClosedOk(input, Step(input, s, l))
  {
  }

  lemma OtherKeepsReasons(input: Input, s: World, l: Label)
    requires Inv(input, s) && Enabled(input, s, l) && !l.Work? && !l.Consume?
    ensures ReasonOk(input, Step(input, s, l)) && RefusedOk(Step(input, s, l))
  {
  }

  lemma OtherKeepsLoop(input: Input, s: World, l: Label)
    requires Inv(input, s) && Enabled(input, s, l) && !l.Work? && !l.Consume?
    ensures LoopOk(input, Step(input, s, l))
  {
  }

  lemma StepKeepsInv(input: Input, s: World, l: Label)
    requires Inv(input, s) && Enabled(input, s, l)
    ensures Inv(input, Step(input, s, l))
  {
    StepKeepsBase(input, s, l);
    match l
    case Work(w, sel) =>
      WorkKeepsStops(input, s, w, sel);
      WorkKeepsLoop(input, s, w, sel);
      WorkKeepsReasons(input, s, w, sel);
      WorkKeepsRefused(input, s, w, sel);
    case Consume(ans) =>
      if s.consumer.Spawning? {
        SpawnKeepsLife(input, s);
        SpawnKeepsRefused(s);
      } else {
        ConsumeKeepsStops(input, s, ans);
        ConsumeKeepsLoop(input, s, ans);
        ConsumeKeepsReasons(input, s, ans);
      }
    case _ =>
      OtherKeepsNested(input, s, l);
      OtherKeepsReasons(input, s, l);
      OtherKeepsLoop(input, s, l);
  }

  lemma {:induction false} RunKeepsInv(input: Input, s: World, ls: seq<Label>, u: World)
    requires Inv(input, s) && IsRun(input, s, ls, u)
    ensures Inv(input, u)
    decreases |ls|
  {
    if ls != [] {
      StepKeepsInv(input, s, ls[0]);
      RunKeepsInv(input, Step(input, s, ls[0]), ls[1..], u);
    }
  }

  lemma ReachableInv(input: Input, s: World)
    requires Reachable(input, s)
    ensures Inv(input, s)
  {
    var ls :| IsRun(input, Init(input.workers), ls, s);
    InitInv(input);
    RunKeepsInv(input, Init(input.workers), ls, s);
  }

  // The end of an undisturbed run.

  /** Go accepted one of the workers. */
  predicate SomeStarted(s: World) {
    exists w :: 0 <= w < |s.workers| && !s.workers[w].NotStarted? && !s.workers[w].Refused?
  }

  lemma WaitedEnds(input: Input, s: World)
    requires Inv(input, s) && Waited(s) && !Disturbed(s) && SomeStarted(s)
    ensures AllOut(input, s) && (input.panics ==> s.hist.failed)
    ensures s.out.queue == [] && Current(s.consumer) == [] && Live(s.workers) == 0
  {
    assert Live(s.workers) == 0;
    var w :| 0 <= w < |s.workers| && !s.workers[w].NotStarted? && !s.workers[w].Refused?;
    if Active(s.workers[w]) { LiveMember(s.workers, w); }
    assert s.workers[w].Exited? && Done(s.workers[w]);
    forall v | 0 <= v < |s.workers| ensures !Active(s.workers[v]) {
      if Active(s.workers[v]) { LiveMember(s.workers, v); }
    }
  }

  /** In a run without a cancellation, a break or a panic of the loop body and an expired
      grace period, in which some worker was started: when Wait has returned, MapUnordered
      has yielded exactly the multiset of all results, ForEach has recorded exactly the
      failing ones, and fn was called exactly once for each index. */
  lemma CompleteWhenUndisturbed(input: Input, s: World)
    requires Reachable(input, s) && Waited(s) && !Disturbed(s) && SomeStarted(s)
    ensures Complete(input, s)
  {
    ReachableInv(input, s);
    WaitedEnds(input, s);
    OutMeansComplete(input, s);
  }
}
