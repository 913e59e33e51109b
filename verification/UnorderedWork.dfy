/**
  What the workers of the unordered operators do and do not do: which are started, how
  little is still pulled after a cancellation or a break, and that a failing task stops
  the rest.
 */
module UnorderedWork {
  import opened SeqStopper
  import opened Unordered
  import opened UnorderedPlaces
  import opened UnorderedLife
  import opened UnorderedReport

  // Starting.

  /** A worker is started exactly if neither the nested stopper nor an ancestor is stopping. */
  lemma SpawnIff(input: Input, s: World, ans: Answer)
    requires s.consumer.Spawning? && s.consumer.k < |s.workers|
    ensures var k, u := s.consumer.k, ConsumeStep(input, s, ans);
      && |u.workers| == |s.workers| && u.consumer == Spawning(k + 1)
      && u.workers[k] == (if s.nested.stopping || s.nested.parentStopping then Refused else Top)
  {
  }

  predicate Stops(n: Nested) {
    n.stopping || n.parentStopping
  }

  lemma StepStarts(input: Input, s: World, l: Label, k: nat)
    requires Enabled(input, s, l) && k < |s.workers| && (s.workers[k].NotStarted? || s.workers[k].Refused?)
    requires Stops(s.nested)
    ensures var u := Step(input, s, l);
      k < |u.workers| && (u.workers[k].NotStarted? || u.workers[k].Refused?) && Stops(u.nested)
  {
    if l.Work? {
      WorkFrame(input, s, l.w, l.sel);
      WorkStays(input, s, l.w, l.sel);
    } else if l.Consume? {
      ConsumeStarts(input, s, l.ans, k);
    }
  }

  lemma WorkStays(input: Input, s: World, w: nat, sel: Select)
    requires WorkEnabled(input, s, w, sel) && Stops(s.nested)
    ensures Stops(WorkStep(input, s, w, sel).nested)
  {
    WorkStops(input, s, w, sel);
  }

  lemma ConsumeStarts(input: Input, s: World, ans: Answer, k: nat)
    requires ConsumeEnabled(input, s) && k < |s.workers| && (s.workers[k].NotStarted? || s.workers[k].Refused?)
    requires Stops(s.nested)
    ensures var u := ConsumeStep(input, s, ans);
      k < |u.workers| && (u.workers[k].NotStarted? || u.workers[k].Refused?) && Stops(u.nested)
  {
    if !s.consumer.Spawning? { ConsumeWorkers(input, s, ans); }
  }

  /** After a stop no further worker is ever started. */
  lemma {:induction false} NoneStartedLater(input: Input, s: World, ls: seq<Label>, u: World, k: nat)
    requires IsRun(input, s, ls, u) && Stops(s.nested)
    requires k < |s.workers| && (s.workers[k].NotStarted? || s.workers[k].Refused?)
    ensures k < |u.workers| && (u.workers[k].NotStarted? || u.workers[k].Refused?)
    decreases |ls|
  {
    if ls != [] {
      StepStarts(input, s, ls[0], k);
      NoneStartedLater(input, Step(input, s, ls[0]), ls[1..], u, k);
    }
  }

  // How much is still pulled.

  /** A bound on the items that a worker can still pull: with the context done, and after an
      early break apart from what fits into the channel. */
  function Pulls(x: Worker, done: bool): nat {
    match x
    case Pulling => 1
    case NotStarted => if done then 0 else 1
    case Top => if done then 0 else 1
    case _ => 0
  }

  function AllPulls(workers: seq<Worker>, done: bool): nat {
    if workers == [] then 0
    else AllPulls(workers[..|workers| - 1], done) + Pulls(workers[|workers| - 1], done)
  }

  lemma {:induction false} PullsUpdate(workers: seq<Worker>, w: nat, x: Worker, done: bool)
    requires w < |workers|
    ensures AllPulls(workers[w := x], done) == AllPulls(workers, done) - Pulls(workers[w], done) + Pulls(x, done)
  {
    var last := |workers| - 1;
    if w == last {
      assert workers[w := x][..last] == workers[..last];
    } else {
      assert workers[w := x][..last] == workers[..last][w := x];
      PullsUpdate(workers[..last], w, x, done);
    }
  }

  lemma {:induction false} PullsBounded(workers: seq<Worker>, done: bool)
    ensures AllPulls(workers, done) <= |workers|
  {
    if workers != [] { PullsBounded(workers[..|workers| - 1], done); }
  }

  lemma WorkAfterDone(input: Input, s: World, w: nat, sel: Select)
    requires WorkEnabled(input, s, w, sel) && s.nested.ctxDone
    ensures var u := WorkStep(input, s, w, sel);
      && |u.workers| == |s.workers| && u.nested.ctxDone
      && u.pull.pos + Pulls(u.workers[w], true) <= s.pull.pos + Pulls(s.workers[w], true)
  {
    WorkStops(input, s, w, sel);
    if s.workers[w].Sending? { SendAfterDone(input, s, w, sel); }
    else if Ended(s.workers[w]) { EndAfterDone(input, s, w); }
    else { LoopAfterDone(input, s, w); }
  }

  lemma SendAfterDone(input: Input, s: World, w: nat, sel: Select)
    requires w < |s.workers| && s.workers[w].Sending?
    ensures var u := SendStep(input, s, w, sel);
      |u.workers| == |s.workers| && u.pull == s.pull && Pulls(u.workers[w], true) == 0
  {
  }

  lemma EndAfterDone(input: Input, s: World, w: nat)
    requires w < |s.workers| && Ended(s.workers[w])
    ensures var u := EndStep(input, s, w);
      |u.workers| == |s.workers| && u.pull == s.pull && Pulls(u.workers[w], true) == 0
  {
  }

  lemma LoopAfterDone(input: Input, s: World, w: nat)
    requires w < |s.workers| && Active(s.workers[w]) && !s.workers[w].Sending? && !Ended(s.workers[w])
    requires s.workers[w].Calling? ==> s.workers[w].item < |input.items|
    requires s.nested.ctxDone
    ensures var u := LoopStep(input, s, w);
      && |u.workers| == |s.workers|
      && u.pull.pos + Pulls(u.workers[w], true) <= s.pull.pos + Pulls(s.workers[w], true)
  {
  }

  lemma ConsumeKeepsDone(input: Input, s: World, ans: Answer)
    requires ConsumeEnabled(input, s)
    ensures ConsumeStep(input, s, ans).nested.ctxDone == s.nested.ctxDone
  {
    match s.consumer
    case Setup => assert Register(input, s).nested.ctxDone == s.nested.ctxDone;
    case Spawning(k) => assert Spawn(s, k).nested.ctxDone == s.nested.ctxDone;
    case Yielding(y) => assert Yield(s, y, ans).nested == s.nested;
    case Receiving => assert Receive(s).nested == s.nested;
    case _ =>
  }

  lemma StepAfterDone(input: Input, s: World, l: Label)
    requires Enabled(input, s, l) && s.nested.ctxDone
    ensures var u := Step(input, s, l);
      && u.nested.ctxDone && u.pull.pos + AllPulls(u.workers, true) <= s.pull.pos + AllPulls(s.workers, true)
  {
    match l
    case Work(w, sel) =>
      WorkFrame(input, s, w, sel);
      WorkAfterDone(input, s, w, sel);
      PullsUpdate(s.workers, w, WorkStep(input, s, w, sel).workers[w], true);
    case Consume(ans) =>
      ConsumeWorkers(input, s, ans);
      ConsumeKeepsDone(input, s, ans);
      if s.consumer.Spawning? && s.consumer.k < |s.workers| {
        PullsUpdate(s.workers, s.consumer.k, ConsumeStep(input, s, ans).workers[s.consumer.k], true);
      }
    case _ =>
  }

  /** Once the nested context is done, each worker that is already past its check may pull
      one more item, and nobody else pulls any. */
  lemma {:induction false} CancelStopsPulling(input: Input, s: World, ls: seq<Label>, u: World)
    requires IsRun(input, s, ls, u) && s.nested.ctxDone
    ensures u.pull.pos <= s.pull.pos + AllPulls(s.workers, true)
    decreases |ls|
  {
    if ls != [] {
      StepAfterDone(input, s, ls[0]);
      CancelStopsPulling(input, Step(input, s, ls[0]), ls[1..], u);
    }
  }

  /** After an early break a delivered result takes a place in the channel for good, and a
      result that is given up ends its worker, unless the context is done as well. */
  function Reserve(s: World): int {
    s.pull.pos + AllPulls(s.workers, s.nested.ctxDone) - |s.out.queue|
  }

  lemma WorkAfterBreak(input: Input, s: World, w: nat, sel: Select)
    requires WorkEnabled(input, s, w, sel) && !input.collects
    ensures var u, done := WorkStep(input, s, w, sel), s.nested.ctxDone;
      && |u.workers| == |s.workers| && u.nested.ctxDone == done
      && u.pull.pos + Pulls(u.workers[w], done) - |u.out.queue|
         <= s.pull.pos + Pulls(s.workers[w], done) - |s.out.queue|
  {
    WorkStops(input, s, w, sel);
    if !Ended(s.workers[w]) && !s.workers[w].Sending? { LoopFrame(input, s, w); }
  }

  lemma {:induction false} DonePullsLess(workers: seq<Worker>)
    ensures AllPulls(workers, true) <= AllPulls(workers, false)
  {
    if workers != [] { DonePullsLess(workers[..|workers| - 1]); }
  }

  lemma StepAfterBreak(input: Input, s: World, l: Label)
    requires Inv(input, s) && Enabled(input, s, l) && s.out.earlyBreak && !input.collects
    ensures Step(input, s, l).out.earlyBreak && Reserve(Step(input, s, l)) <= Reserve(s)
  {
    match l
    case Work(w, sel) =>
      WorkFrame(input, s, w, sel);
      WorkAfterBreak(input, s, w, sel);
      PullsUpdate(s.workers, w, WorkStep(input, s, w, sel).workers[w], s.nested.ctxDone);
    case Consume(ans) =>
      ConsumeHistory(input, s, ans);
      ConsumeKeepsDone(input, s, ans);
    case _ => DonePullsLess(s.workers);
  }

  lemma {:induction false} BreakBounds(input: Input, s: World, ls: seq<Label>, u: World)
    requires Inv(input, s) && IsRun(input, s, ls, u) && s.out.earlyBreak && !input.collects
    ensures Inv(input, u) && Reserve(u) <= Reserve(s)
    decreases |ls|
  {
    if ls != [] {
      StepAfterBreak(input, s, ls[0]);
      StepKeepsInv(input, s, ls[0]);
      BreakBounds(input, Step(input, s, ls[0]), ls[1..], u);
    }
  }

  /** After an early break the workers of MapUnordered pull at most one item each, and one
      for each place that is free in the results channel. */
  lemma BreakStopsPulling(input: Input, s: World, ls: seq<Label>, u: World)
    requires Inv(input, s) && IsRun(input, s, ls, u) && s.out.earlyBreak && !input.collects
    ensures u.pull.pos <= s.pull.pos + input.workers + (input.workers - |s.out.queue|)
  {
    BreakBounds(input, s, ls, u);
    PullsBounded(s.workers, s.nested.ctxDone);
  }

  /** When the operator has returned its stopper is stopping, and nothing is ever pulled
      from the input again. */
  lemma {:induction false} NothingAfterReturn(input: Input, s: World, ls: seq<Label>, u: World)
    requires Inv(input, s) && IsRun(input, s, ls, u) && s.consumer.Finished?
    ensures s.nested.stopping && s.pull.closed && u.pull.pos == s.pull.pos && u.out.yielded == s.out.yielded
    decreases |ls|
  {
    if ls != [] {
      StepKeepsInv(input, s, ls[0]);
      if ls[0].Work? {
        WorkFrame(input, s, ls[0].w, ls[0].sel);
        WorkClosed(input, s, ls[0].w, ls[0].sel);
      }
      NothingAfterReturn(input, Step(input, s, ls[0]), ls[1..], u);
    }
  }

  lemma WorkClosed(input: Input, s: World, w: nat, sel: Select)
    requires WorkEnabled(input, s, w, sel) && s.pull.closed
    ensures WorkStep(input, s, w, sel).pull.pos == s.pull.pos
  {
  }

  // The error handler.

  ghost predicate SomeHalting(s: World) {
    exists w :: 0 <= w < |s.workers| && s.workers[w].Halting?
  }

  ghost predicate HandlerOk(input: Input, s: World) {
    && (SomeHalting(s) ==> input.handler.HandlerStop?)
    && (input.handler.HandlerStop? && s.hist.failed ==> s.nested.stopping || SomeFailing(s) || SomeHalting(s))
  }

  lemma WorkHandles(input: Input, s: World, w: nat, sel: Select)
    requires WorkEnabled(input, s, w, sel)
    ensures var u, x := WorkStep(input, s, w, sel), s.workers[w];
      && |u.workers| == |s.workers|
      && (u.workers[w].Halting? <==> x.Failed? && input.handler.HandlerStop?)
      && (x.Halting? ==> u.nested.stopping)
      && (s.nested.stopping ==> u.nested.stopping)
  {
    WorkStops(input, s, w, sel);
  }

  lemma WorkKeepsHandler(input: Input, s: World, w: nat, sel: Select)
    requires HandlerOk(input, s) && WorkEnabled(input, s, w, sel)
    ensures HandlerOk(input, WorkStep(input, s, w, sel))
  {
    var u := WorkStep(input, s, w, sel);
    WorkFrame(input, s, w, sel);
    WorkFaults(input, s, w, sel);
    WorkHandles(input, s, w, sel);
    if v :| 0 <= v < |u.workers| && u.workers[v].Halting? && v != w { assert s.workers[v].Halting?; }
    if u.workers[w].Failed? || u.workers[w].Halting? {
      assert SomeFailing(u) || SomeHalting(u);
    } else if input.handler.HandlerStop? && s.hist.failed && !s.nested.stopping && !u.nested.stopping {
      var v :| 0 <= v < |s.workers| && (s.workers[v].Failed? || s.workers[v].Halting?);
      assert v != w && u.workers[v] == s.workers[v];
    }
  }

  lemma OtherHandler(input: Input, s: World, l: Label)
    requires SpawnOk(s) && Enabled(input, s, l) && !l.Work?
    ensures var u := Step(input, s, l);
      && |u.workers| == |s.workers| && u.hist.failed == s.hist.failed
      && (s.nested.stopping ==> u.nested.stopping)
      && forall w :: 0 <= w < |s.workers| ==>
           if s.workers[w].NotStarted? then !u.workers[w].Failed? && !u.workers[w].Halting?
           else u.workers[w] == s.workers[w]
  {
    if l.Consume? {
      ConsumeWorkers(input, s, l.ans);
      if !s.consumer.Spawning? { ConsumeHistory(input, s, l.ans); }
      else if s.consumer.k < |s.workers| { assert s.workers[s.consumer.k].NotStarted?; }
    }
  }

  lemma StepKeepsHandler(input: Input, s: World, l: Label)
    requires SpawnOk(s) && HandlerOk(input, s) && Enabled(input, s, l)
    ensures HandlerOk(input, Step(input, s, l))
  {
    if l.Work? {
      WorkKeepsHandler(input, s, l.w, l.sel);
    } else {
      var u := Step(input, s, l);
      OtherHandler(input, s, l);
      if v :| 0 <= v < |s.workers| && (s.workers[v].Failed? || s.workers[v].Halting?) {
        assert u.workers[v] == s.workers[v];
      }
    }
  }

  lemma {:induction false} RunKeepsHandler(input: Input, s: World, ls: seq<Label>, u: World)
    requires BaseInv(input, s) && HandlerOk(input, s) && IsRun(input, s, ls, u)
    ensures HandlerOk(input, u)
    decreases |ls|
  {
    if ls != [] {
      StepKeepsHandler(input, s, ls[0]);
      StepKeepsBase(input, s, ls[0]);
      RunKeepsHandler(input, Step(input, s, ls[0]), ls[1..], u);
    }
  }

  /** Under the default handler a failing task stops the nested stopper: once the handlers of
      all failed tasks have returned, it is stopping.  No other handler does so. */
  lemma FailingTaskStops(input: Input, s: World)
    requires Reachable(input, s)
    ensures input.handler.HandlerStop? && s.hist.failed && !SomeFailing(s) && !SomeHalting(s) ==> s.nested.stopping
    ensures !input.handler.HandlerStop? ==> !SomeHalting(s)
  {
    var ls :| IsRun(input, Init(input.workers), ls, s);
    InitPlaces(input);
    assert BaseInv(input, Init(input.workers)) && HandlerOk(input, Init(input.workers));
    RunKeepsHandler(input, Init(input.workers), ls, s);
  }
}
