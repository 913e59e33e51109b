/**
  The nested stopper and the consumer of ordered Map through a whole run, and the
  completeness of undisturbed runs.
 */
module OrderedMapLife {
  import opened SeqStopper
  import opened OrderedMap
  import opened OrderedMapOrder

  lemma {:induction false} LiveUpdate(workers: seq<Worker>, w: nat, x: Worker)
    requires w < |workers|
    ensures Live(workers[w := x])
            == Live(workers) - (if Active(workers[w]) then 1 else 0) + (if Active(x) then 1 else 0)
  {
    var last := |workers| - 1;
    if w == last {
      assert workers[w := x][..last] == workers[..last];
    } else {
      assert workers[w := x][..last] == workers[..last][w := x];
      LiveUpdate(workers[..last], w, x);
    }
  }

  lemma {:induction false} LiveMember(workers: seq<Worker>, w: nat)
    requires w < |workers| && Active(workers[w])
    ensures Live(workers) > 0
  {
    if w < |workers| - 1 { LiveMember(workers[..|workers| - 1], w); }
  }

  lemma {:induction false} LiveWitness(workers: seq<Worker>) returns (w: nat)
    requires Live(workers) > 0
    ensures w < |workers| && Active(workers[w])
  {
    var last := |workers| - 1;
    if Active(workers[last]) { w := last; }
    else { w := LiveWitness(workers[..last]); }
  }

  lemma {:induction false} LiveNone(workers: seq<Worker>)
    requires forall w :: 0 <= w < |workers| ==> !Active(workers[w])
    ensures Live(workers) == 0
  {
    if workers != [] { LiveNone(workers[..|workers| - 1]); }
  }

  /** Something other than the end of the input ended the run, or may have. */
  predicate Disturbed(s: World) {
    s.hist.cancelled || s.hist.broke || s.hist.threw || s.hist.expired
  }

  ghost predicate NestedOk(s: World) {
    var n, live := s.nested, Live(s.workers);
    && (!n.phase.Armed? ==> n.stopping && (s.hist.expired || live == 0))
    && ((n.stopping || n.onIdle) && live == 0 ==> !n.phase.Armed?)
    && (n.phase.Over? ==> n.ctxDone)
    && (n.ctxDone ==> s.hist.cancelled || n.phase.Over?)
    && n.grace == s.hist.expired && (n.grace ==> !n.phase.Armed?)
    && (!s.hist.cancelled ==> n.graceCause == (n.ctxDone && n.grace))
  }

  /** `results` is closed by the deferred callback of the hard stop, or at once when the
      stopper was already stopped; never both. */
  ghost predicate ClosedOk(s: World) {
    var n := s.nested;
    && (s.chans.closed ==> !n.phase.Armed?)
    && (s.consumer.Setup? ==> !n.registered && !s.chans.closed)
    && (!s.consumer.Setup? && (n.phase.Closing? || n.phase.Over? || !n.registered) ==> s.chans.closed)
    && (n.registered && (n.phase.Armed? || n.phase.Firing?) ==> !s.chans.closed)
  }

  /** The consumer is past the loop over the results, which it has drained. */
  predicate Waited(s: World) {
    Ending(s.consumer) && !s.hist.broke && !s.hist.threw
  }

  ghost predicate LoopOk(s: World) {
    var c := s.consumer;
    && (c.Setup? || c.Spawning? || c.CallIdle? <==> !s.nested.onIdle)
    && (s.hist.broke <==> c.Breaking? || (Ending(c) && s.chans.earlyBreak))
    && (s.hist.threw ==> Ending(c) && !s.chans.earlyBreak)
    && (s.chans.earlyBreak ==> Ending(c))
    && (c.WaitDone? || Waited(s) ==> s.chans.closed && s.chans.queue == [])
    && (c.Unpull? || c.Finished? ==> s.nested.stopping)
    && (s.pull.closed <==> c.Finished?)
  }

  predicate Done(x: Worker) {
    x.Empty? || x.Failed? || x.Halting? || x.Leaving? || x.Exited? || (x.Release? && !x.ok)
  }

  ghost predicate ReasonOk(input: Input, s: World) {
    && (s.hist.dropped > 0 ==> Disturbed(s))
    && (!Disturbed(s) ==>
          forall w :: 0 <= w < |s.workers| && Done(s.workers[w]) ==>
            s.pull.pos == |input.items| && (input.panics ==> s.hist.failed))
    && (s.hist.refused <==> exists w :: 0 <= w < |s.workers| && s.workers[w].Refused?)
    && (s.hist.failed ==> s.hist.cancelled || s.hist.expired || input.panics)
  }

  ghost predicate LifeInv(input: Input, s: World) {
    NestedOk(s) && ClosedOk(s) && LoopOk(s) && ReasonOk(input, s)
  }

  ghost predicate Inv(input: Input, s: World) {
    OrderInv(input, s) && LifeInv(input, s)
  }

  lemma InitInv(input: Input)
    ensures Inv(input, Init(input.workers))
  {
    InitOrder(input);
    LiveNone(Init(input.workers).workers);
  }

  // Steps of a worker.

  lemma WorkLive(input: Input, s: World, w: nat, sel: Select)
    requires WorkEnabled(input, s, w, sel)
    ensures Live(s.workers) > 0
    ensures Live(WorkStep(input, s, w, sel).workers) == Live(s.workers) - (if s.workers[w].Leaving? then 1 else 0)
  {
    LiveMember(s.workers, w);
    WorkFrame(input, s, w, sel);
    WorkActive(input, s, w, sel);
    LiveUpdate(s.workers, w, WorkStep(input, s, w, sel).workers[w]);
  }

  lemma WorkActive(input: Input, s: World, w: nat, sel: Select)
    requires WorkEnabled(input, s, w, sel)
    ensures var u := WorkStep(input, s, w, sel);
      |u.workers| == |s.workers| && (Active(u.workers[w]) <==> !s.workers[w].Leaving?)
  {
    if !s.workers[w].Holding? && !Ended(s.workers[w]) { LoopWorker(input, s, w, sel); }
  }

  lemma WorkKeepsStops(input: Input, s: World, w: nat, sel: Select)
    requires LifeInv(input, s) && WorkEnabled(input, s, w, sel)
    ensures var u := WorkStep(input, s, w, sel);
      NestedOk(u) && ClosedOk(u)
  {
    WorkLive(input, s, w, sel);
    WorkStops(input, s, w, sel);
  }

  /** A worker touches the nested stopper only by its error, by the handler's Stop, and by
      being the last to go. */
  lemma WorkStops(input: Input, s: World, w: nat, sel: Select)
    requires WorkEnabled(input, s, w, sel)
    ensures var n, u := s.nested, WorkStep(input, s, w, sel);
      && u.chans.closed == s.chans.closed && u.consumer == s.consumer
      && match s.workers[w]
         case Leaving => u.nested == Settle(n, Live(u.workers))
         case Halting => u.nested == Settle(n.(stopping := true), Live(s.workers))
         case Failed(_) => u.nested == n.(errs := u.nested.errs) && n.errs <= u.nested.errs
         case _ => u.nested == n
  {
    if !Ended(s.workers[w]) { LoopStops(input, s, w, sel); }
  }

  lemma LoopStops(input: Input, s: World, w: nat, sel: Select)
    requires WorkEnabled(input, s, w, sel) && !Ended(s.workers[w])
    ensures var u := WorkStep(input, s, w, sel);
      u.chans.closed == s.chans.closed && u.consumer == s.consumer && u.nested == s.nested
  {
    if !s.workers[w].Holding? { assert LoopStep(input, s, w, sel).nested == s.nested; }
  }

  /** A worker finds its context done, the results closed, an early break or the puller
      stopped only in a disturbed run. */
  lemma ActiveMeansDisturbed(s: World, w: nat)
    requires NestedOk(s) && ClosedOk(s) && LoopOk(s) && w < |s.workers| && Active(s.workers[w])
    ensures s.nested.ctxDone || s.chans.closed || s.chans.earlyBreak || s.pull.closed ==> Disturbed(s)
    ensures s.nested.ctxDone || s.chans.closed ==> s.hist.cancelled || s.hist.expired
  {
    LiveMember(s.workers, w);
  }

  /** What a worker's step does to the history, the puller's position and its own state. */
  ghost predicate WorkFrames(input: Input, s: World, u: World, w: nat)
    requires w < |s.workers|
  {
    && |u.workers| == |s.workers|
    && u.workers == s.workers[w := u.workers[w]] && !u.workers[w].Refused? && !s.workers[w].Refused?
    && u.hist.(sent := s.hist.sent, dropped := s.hist.dropped, failed := s.hist.failed,
               faults := s.hist.faults) == s.hist
    && (u.hist.dropped != s.hist.dropped ==>
          s.workers[w].Holding? && (s.nested.ctxDone || s.chans.closed || s.chans.earlyBreak))
    && (s.hist.failed ==> u.hist.failed)
    && (u.hist.failed ==> s.hist.failed || s.nested.ctxDone || s.chans.closed || PullPanics(input, s.pull))
    && s.pull.pos <= u.pull.pos
  }

  lemma WorkFrame(input: Input, s: World, w: nat, sel: Select)
    requires WorkEnabled(input, s, w, sel)
    ensures WorkFrames(input, s, WorkStep(input, s, w, sel), w)
  {
    if s.workers[w].Holding? { SelectFrame(input, s, w, sel); }
    else if Ended(s.workers[w]) { EndFrame(input, s, w); }
    else { LoopFrame(input, s, w, sel); }
  }

  lemma SelectFrame(input: Input, s: World, w: nat, sel: Select)
    requires WorkEnabled(input, s, w, sel) && s.workers[w].Holding?
    ensures WorkFrames(input, s, AtSelect(s, w, s.workers[w].i, s.workers[w].item, sel), w)
  {
    SelectHistory(s, w, sel);
    SelectWorker(s, w, sel);
  }

  lemma SelectHistory(s: World, w: nat, sel: Select)
    requires w < |s.workers| && s.workers[w].Holding?
    ensures var h, k := s.hist, AtSelect(s, w, s.workers[w].i, s.workers[w].item, sel).hist;
      if !sel.SelSend? then k == h.(dropped := h.dropped + 1)
      else if s.chans.closed then k == h.(dropped := h.dropped + 1, failed := true, faults := k.faults)
      else k == h.(sent := h.sent + [s.workers[w].i])
  {
  }

  lemma SelectWorker(s: World, w: nat, sel: Select)
    requires w < |s.workers| && s.workers[w].Holding?
    ensures var u := AtSelect(s, w, s.workers[w].i, s.workers[w].item, sel);
      && |u.workers| == |s.workers| && u.workers == s.workers[w := u.workers[w]]
      && !u.workers[w].Refused? && u.pull == s.pull
  {
  }

  lemma EndFrame(input: Input, s: World, w: nat)
    requires w < |s.workers| && Ended(s.workers[w])
    ensures WorkFrames(input, s, EndStep(input, s, w), w)
  {
  }

  lemma LoopFrame(input: Input, s: World, w: nat, sel: Select)
    requires WorkEnabled(input, s, w, sel) && !s.workers[w].Holding? && !Ended(s.workers[w])
    ensures WorkFrames(input, s, LoopStep(input, s, w, sel), w)
  {
    LoopLeaves(input, s, w, sel);
    LoopHistory(input, s, w, sel);
    LoopWorker(input, s, w, sel);
  }

  lemma LoopHistory(input: Input, s: World, w: nat, sel: Select)
    requires WorkEnabled(input, s, w, sel) && !s.workers[w].Holding? && !Ended(s.workers[w])
    ensures var h := LoopStep(input, s, w, sel).hist;
      h == s.hist || (h == s.hist.(failed := true, faults := h.faults) && (s.nested.ctxDone || PullPanics(input, s.pull)))
  {
    if s.workers[w].Locking? { LockingHistory(input, s, w, sel); }
    else if !s.workers[w].Top? { assert LoopStep(input, s, w, sel).hist == s.hist; }
  }

  lemma LockingHistory(input: Input, s: World, w: nat, sel: Select)
    requires WorkEnabled(input, s, w, sel) && s.workers[w].Locking?
    ensures LoopStep(input, s, w, sel).hist
            == if PullPanics(input, s.pull) then Failure(s.hist, InputPanic) else s.hist
  {
  }

  lemma LoopWorker(input: Input, s: World, w: nat, sel: Select)
    requires WorkEnabled(input, s, w, sel) && !s.workers[w].Holding? && !Ended(s.workers[w])
    ensures var u := LoopStep(input, s, w, sel);
      && |u.workers| == |s.workers| && !u.workers[w].Refused? && Active(u.workers[w])
      && s.pull.pos <= u.pull.pos
  {
  }

  lemma WorkKeepsReasons(input: Input, s: World, w: nat, sel: Select)
    requires Inv(input, s) && WorkEnabled(input, s, w, sel)
    requires WorkStep(input, s, w, sel).pull.pos <= |input.items|
    ensures ReasonOk(input, WorkStep(input, s, w, sel))
  {
    ActiveMeansDisturbed(s, w);
    WorkFrame(input, s, w, sel);
    var u := WorkStep(input, s, w, sel);
    if !Disturbed(u) {
      forall v | 0 <= v < |u.workers| && Done(u.workers[v])
        ensures u.pull.pos == |input.items| && (input.panics ==> u.hist.failed)
      {
        if v == w { WorkDone(input, s, w, sel); }
      }
    }
    WorkRefuses(s, u, w);
  }

  lemma WorkRefuses(s: World, u: World, w: nat)
    requires w < |s.workers| == |u.workers| && u.workers == s.workers[w := u.workers[w]]
    requires !u.workers[w].Refused? && !s.workers[w].Refused?
    ensures (exists v :: 0 <= v < |u.workers| && u.workers[v].Refused?)
       <==> (exists v :: 0 <= v < |s.workers| && s.workers[v].Refused?)
  {
    if v :| 0 <= v < |s.workers| && s.workers[v].Refused? { assert u.workers[v].Refused?; }
  }

  /** An undisturbed worker is done only because the input is exhausted, and if the input
      panics, by that panic. */
  lemma WorkDone(input: Input, s: World, w: nat, sel: Select)
    requires Inv(input, s) && WorkEnabled(input, s, w, sel) && !Disturbed(s)
    requires Done(WorkStep(input, s, w, sel).workers[w])
    ensures WorkStep(input, s, w, sel).pull.pos == |input.items|
    ensures input.panics ==> WorkStep(input, s, w, sel).hist.failed
  {
    ActiveMeansDisturbed(s, w);
  }

  lemma WorkKeepsLoop(input: Input, s: World, w: nat, sel: Select)
    requires LifeInv(input, s) && WorkEnabled(input, s, w, sel)
    ensures LoopOk(WorkStep(input, s, w, sel))
  {
    LiveMember(s.workers, w);
    ActiveMeansDisturbed(s, w);
    WorkFrame(input, s, w, sel);
    WorkStops(input, s, w, sel);
    WorkQueue(input, s, w, sel);
  }

  lemma WorkQueue(input: Input, s: World, w: nat, sel: Select)
    requires WorkEnabled(input, s, w, sel)
    ensures var u := WorkStep(input, s, w, sel);
      && u.chans.earlyBreak == s.chans.earlyBreak && u.pull.closed == s.pull.closed
      && (s.chans.closed ==> u.chans.queue == s.chans.queue)
      && u.nested.onIdle == s.nested.onIdle
  {
  }

  // Steps of the consumer.

  lemma SpawnKeepsLife(input: Input, s: World)
    requires Inv(input, s) && s.consumer.Spawning?
    ensures LifeInv(input, Spawn(s, s.consumer.k))
  {
    var k, u := s.consumer.k, Spawn(s, s.consumer.k);
    if k < |s.workers| {
      assert s.workers[k].NotStarted?;
      LiveUpdate(s.workers, k, u.workers[k]);
      if u.workers[k].Refused? { SpawnRefuses(s, u); }
      else { WorkRefuses(s, u, k); }
    }
  }

  lemma SpawnRefuses(s: World, u: World)
    requires s.consumer.Spawning? && s.consumer.k < |s.workers| && u == Spawn(s, s.consumer.k)
    requires u.workers[s.consumer.k].Refused? && s.workers[s.consumer.k].NotStarted?
    ensures u.hist.refused && exists w :: 0 <= w < |u.workers| && u.workers[w].Refused?
  {
  }

  lemma ConsumeKeepsStops(input: Input, s: World, ans: Answer)
    requires LifeInv(input, s) && ConsumeEnabled(s) && !s.consumer.Spawning?
    ensures var u := ConsumeStep(s, ans);
      NestedOk(u) && ClosedOk(u)
  {
  }

  lemma ConsumeKeepsLoop(input: Input, s: World, ans: Answer)
    requires LifeInv(input, s) && ConsumeEnabled(s) && !s.consumer.Spawning?
    ensures LoopOk(ConsumeStep(s, ans))
  {
  }

  lemma ConsumeKeepsReasons(input: Input, s: World, ans: Answer)
    requires LifeInv(input, s) && ConsumeEnabled(s) && !s.consumer.Spawning?
    ensures ReasonOk(input, ConsumeStep(s, ans))
  {
    LeaveWorkers(s, ans);
    ConsumeHistory(s, ans);
  }

  lemma ConsumeHistory(s: World, ans: Answer)
    requires ConsumeEnabled(s) && !s.consumer.Spawning?
    ensures var h, k := s.hist, ConsumeStep(s, ans).hist;
      && k.(broke := h.broke, threw := h.threw) == h
      && (h.broke ==> k.broke) && (h.threw ==> k.threw)
  {
    if !s.consumer.Yielding? { assert ConsumeStep(s, ans).hist == s.hist; }
  }

  lemma StepKeepsInv(input: Input, s: World, l: Label)
    requires Inv(input, s) && Enabled(input, s, l)
    ensures Inv(input, Step(input, s, l))
  {
    StepKeepsOrder(input, s, l);
    match l
    case Work(w, sel) =>
      WorkKeepsStops(input, s, w, sel);
      WorkKeepsReasons(input, s, w, sel);
      WorkKeepsLoop(input, s, w, sel);
    case Consume(ans) =>
      if s.consumer.Spawning? {
        SpawnKeepsLife(input, s);
      } else {
        ConsumeKeepsStops(input, s, ans);
        ConsumeKeepsLoop(input, s, ans);
        ConsumeKeepsReasons(input, s, ans);
      }
    case _ => OtherKeepsLife(input, s, l);
  }

  lemma OtherKeepsLife(input: Input, s: World, l: Label)
    requires Inv(input, s) && Enabled(input, s, l) && !l.Work? && !l.Consume?
    ensures LifeInv(input, Step(input, s, l))
  {
    OtherKeepsNested(input, s, l);
    OtherKeepsLoop(input, s, l);
    OtherKeepsReasons(input, s, l);
  }

  lemma OtherKeepsNested(input: Input, s: World, l: Label)
    requires LifeInv(input, s) && Enabled(input, s, l) && !l.Work? && !l.Consume?
    ensures NestedOk(Step(input, s, l))
  {
  }

  lemma OtherKeepsLoop(input: Input, s: World, l: Label)
    requires LifeInv(input, s) && Enabled(input, s, l) && !l.Work? && !l.Consume?
    ensures ClosedOk(Step(input, s, l)) && LoopOk(Step(input, s, l))
  {
  }

  lemma OtherKeepsReasons(input: Input, s: World, l: Label)
    requires Inv(input, s) && Enabled(input, s, l) && !l.Work? && !l.Consume?
    ensures ReasonOk(input, Step(input, s, l))
  {
  }

  lemma {:induction false} RunKeepsInv(input: Input, s: World, ls: seq<Label>, u: World)
    requires Inv(input, s) && IsRun(input, s, ls, u)
    ensures Inv(input, u)
    decreases |ls|
  {
    if ls != [] {
      StepKeepsInv(input, s, ls[0]);
      RunKeepsInv(input, Step(input, s, ls[0]), ls[1..], u);
    }
  }

  lemma ReachableInv(input: Input, s: World)
    requires Reachable(input, s)
    ensures Inv(input, s)
  {
    var ls :| IsRun(input, Init(input.workers), ls, s);
    InitInv(input);
    RunKeepsInv(input, Init(input.workers), ls, s);
  }

  // Completeness.

  lemma {:induction false} IncreasingFull(xs: seq<nat>, k: nat)
    requires Increasing(xs) && AllBelow(xs, |xs|) && k < |xs|
    ensures xs[k] == k
  {
    IncreasingFrom(xs, k);
    IncreasingTo(xs, k);
  }

  lemma {:induction false} IncreasingFrom(xs: seq<nat>, k: nat)
    requires Increasing(xs) && k < |xs|
    ensures xs[k] >= k
  {
    if k > 0 { IncreasingFrom(xs, k - 1); }
  }

  lemma {:induction false} IncreasingTo(xs: seq<nat>, k: nat)
    requires Increasing(xs) && AllBelow(xs, |xs|) && k < |xs|
    ensures xs[k] <= k
    decreases |xs| - k
  {
    if k < |xs| - 1 { IncreasingTo(xs, k + 1); }
  }

  /** The sequential map of the whole input. */
  function AllResults(input: Input): seq<(nat, Result)> {
    seq(|input.items|, i requires 0 <= i < |input.items| => (i, input.fn(i, input.items[i])))
  }

  /** The consumer has drained the results to their end. */
  predicate Drained(s: World) {
    s.consumer.WaitDone? || Waited(s)
  }

  /** Go accepted one of the workers. */
  predicate SomeStarted(s: World) {
    exists w :: 0 <= w < |s.workers| && !s.workers[w].NotStarted? && !s.workers[w].Refused?
  }

  /** All that was pulled has been yielded. */
  lemma AllYielded(input: Input, s: World)
    requires Inv(input, s) && !Disturbed(s) && s.pull.pos == |input.items| && Held(s) == 0
    requires s.chans.queue == [] && Current(s.consumer) == []
    ensures s.yielded == AllResults(input)
  {
    assert s.hist.sent == Indices(s.yielded);
    forall k | 0 <= k < |s.yielded| ensures s.yielded[k] == AllResults(input)[k] {
      IncreasingFull(s.hist.sent, k);
      assert Correct(input, s.yielded[k].0, s.yielded[k].1);
      assert s.hist.sent[k] == s.yielded[k].0;
    }
  }

  lemma DrainedEnds(input: Input, s: World)
    requires Inv(input, s) && Drained(s) && !Disturbed(s) && SomeStarted(s)
    ensures s.pull.pos == |input.items| && (input.panics ==> s.hist.failed)
    ensures Live(s.workers) == 0 && Held(s) == 0
  {
    assert Live(s.workers) == 0;
    var w :| 0 <= w < |s.workers| && !s.workers[w].NotStarted? && !s.workers[w].Refused?;
    if Active(s.workers[w]) { LiveMember(s.workers, w); }
    assert s.workers[w].Exited? && Done(s.workers[w]);
    if Held(s) == 1 { LiveMember(s.workers, s.pull.mutex.value); }
  }

  /** If some worker was started, and without a cancellation, an early break or a panic of
      the caller's loop, and an expired grace period, the consumer has yielded exactly the
      sequential map of the input by the time it has drained the results. */
  lemma CompleteWhenUndisturbed(input: Input, s: World)
    requires Reachable(input, s) && Drained(s) && !Disturbed(s) && SomeStarted(s)
    ensures s.yielded == AllResults(input)
  {
    ReachableInv(input, s);
    DrainedEnds(input, s);
    AllYielded(input, s);
  }

  /** Unless a grace period expires, `results` is closed only after all workers have
      exited, no step closes it twice, and nothing is sent to it afterwards. */
  lemma ClosedOnceAfterWorkers(input: Input, s: World, l: Label)
    requires Reachable(input, s) && Enabled(input, s, l) && !s.hist.expired
    ensures s.chans.closed ==> Live(s.workers) == 0 && Step(input, s, l).hist.sent == s.hist.sent
    ensures !(s.chans.closed && l.Finish? && s.nested.phase.Firing? && s.nested.registered)
    ensures !(s.chans.closed && l.Consume? && s.consumer.Setup?)
  {
    ReachableInv(input, s);
    if l.Work? { WorkLive(input, s, l.w, l.sel); }
  }
}
