/**
  What the workers of ordered Map do and do not do: which are started, that no item is
  processed twice, how little is still pulled after a cancellation or a break, and that a
  failing task stops the rest.
 */
module OrderedMapWork {
  import opened Options
  import opened SeqStopper
  import opened OrderedMap
  import opened OrderedMapOrder
  import opened OrderedMapLife
  import opened OrderedMapExtra

  // Starting.

  /** A worker is started exactly if neither the nested stopper nor an ancestor is stopping. */
  lemma SpawnIff(s: World, ans: Answer)
    requires s.consumer.Spawning? && s.consumer.k < |s.workers|
    ensures var k, u := s.consumer.k, ConsumeStep(s, ans);
      && |u.workers| == |s.workers| && u.consumer == Spawning(k + 1)
      && u.workers[k] == (if s.nested.stopping || s.nested.parentStopping then Refused else Top)
  {
  }

  /** After a stop no further worker is ever started. */
  lemma {:induction false} NoneStartedLater(input: Input, s: World, ls: seq<Label>, u: World, k: nat)
    requires IsRun(input, s, ls, u) && Stops(s.nested)
    requires k < |s.workers| && (s.workers[k].NotStarted? || s.workers[k].Refused?)
    ensures k < |u.workers| && (u.workers[k].NotStarted? || u.workers[k].Refused?)
    decreases |ls|
  {
    if ls != [] {
      StepStarts(input, s, ls[0], k);
      NoneStartedLater(input, Step(input, s, ls[0]), ls[1..], u, k);
    }
  }

  predicate Stops(n: Nested) {
    n.stopping || n.parentStopping
  }

  lemma StepStarts(input: Input, s: World, l: Label, k: nat)
    requires Enabled(input, s, l) && k < |s.workers| && (s.workers[k].NotStarted? || s.workers[k].Refused?)
    requires Stops(s.nested)
    ensures var u := Step(input, s, l);
      k < |u.workers| && (u.workers[k].NotStarted? || u.workers[k].Refused?) && Stops(u.nested)
  {
    if l.Work? {
      WorkFrame(input, s, l.w, l.sel);
      WorkStays(input, s, l.w, l.sel);
    } else if l.Consume? {
      ConsumeStarts(s, l.ans, k);
    }
  }

  lemma WorkStays(input: Input, s: World, w: nat, sel: Select)
    requires WorkEnabled(input, s, w, sel) && Stops(s.nested)
    ensures Stops(WorkStep(input, s, w, sel).nested)
  {
    WorkStops(input, s, w, sel);
  }

  lemma ConsumeStarts(s: World, ans: Answer, k: nat)
    requires ConsumeEnabled(s) && k < |s.workers| && (s.workers[k].NotStarted? || s.workers[k].Refused?)
    requires Stops(s.nested)
    ensures var u := ConsumeStep(s, ans);
      k < |u.workers| && (u.workers[k].NotStarted? || u.workers[k].Refused?) && Stops(u.nested)
  {
    if !s.consumer.Spawning? {
      LeaveWorkers(s, ans);
      ConsumeStays(s, ans);
    }
  }

  lemma ConsumeStays(s: World, ans: Answer)
    requires ConsumeEnabled(s) && !s.consumer.Spawning? && Stops(s.nested)
    ensures Stops(ConsumeStep(s, ans).nested)
  {
  }

  // No item is processed twice.

  function Hand(x: Worker): Option<nat> {
    if x.Holding? || x.Release? || x.Calling? || x.Sending? then Some(x.i) else None
  }

  /** The worker will call the function, or has called it. */
  predicate Processes(x: Worker) {
    (x.Release? && x.ok) || x.Calling? || x.Sending?
  }

  ghost predicate HandOk(s: World, x: Worker) {
    && (Hand(x).Some? ==> Hand(x).value < s.pull.pos && Hand(x).value !in s.chans.slots)
    && (Processes(x) ==> x.i in s.hist.sent)
  }

  ghost predicate HandsOk(s: World) {
    && (forall w :: 0 <= w < |s.workers| ==> HandOk(s, s.workers[w]))
    && (forall v, w :: 0 <= v < w < |s.workers| && Hand(s.workers[v]).Some? ==>
          Hand(s.workers[v]) != Hand(s.workers[w]))
    && (forall i :: i in s.chans.slots ==> i < s.pull.pos && i in s.hist.sent)
  }

  /** What a worker's step does with its item. */
  lemma WorkHand(input: Input, s: World, w: nat, sel: Select)
    requires OrderInv(input, s) && WorkEnabled(input, s, w, sel) && HandsOk(s)
    ensures var u, x := WorkStep(input, s, w, sel), s.workers[w];
      && |u.workers| == |s.workers| && HandOk(u, u.workers[w])
      && (Hand(u.workers[w]).Some? ==> Hand(u.workers[w]) == Hand(x) || Hand(u.workers[w]).value == s.pull.pos)
      && s.pull.pos <= u.pull.pos && s.hist.sent <= u.hist.sent
      && (u.chans.slots == s.chans.slots
          || (x.Sending? && u.chans.slots == s.chans.slots[x.i := x.r] && Hand(u.workers[w]).None?))
  {
    assert HandOk(s, s.workers[w]) && WorkerOk(|input.items|, s.pull, s.hist.sent, w, s.workers[w]);
    if s.workers[w].Holding? { SelectHand(s, w, sel); }
    else if Ended(s.workers[w]) { EndLeaves(input, s, w); EndHand(input, s, w); }
    else { LoopLeaves(input, s, w, sel); LoopHand(input, s, w, sel); }
  }

  lemma EndHand(input: Input, s: World, w: nat)
    requires w < |s.workers| && Ended(s.workers[w])
    ensures var u := EndStep(input, s, w);
      && |u.workers| == |s.workers| && Hand(u.workers[w]).None? && !Processes(u.workers[w])
      && u.pull == s.pull && u.chans == s.chans
  {
  }

  lemma LoopHand(input: Input, s: World, w: nat, sel: Select)
    requires WorkEnabled(input, s, w, sel) && !s.workers[w].Holding? && !Ended(s.workers[w])
    requires PullerOk(|input.items|, s.pull) && HandsOk(s) && HandOk(s, s.workers[w])
    ensures var u, x := LoopStep(input, s, w, sel), s.workers[w];
      && |u.workers| == |s.workers| && s.pull.pos <= u.pull.pos
      && (Processes(u.workers[w]) ==> Processes(x) && u.workers[w].i == x.i)
      && (Hand(u.workers[w]).Some? ==>
            Hand(u.workers[w]).value < u.pull.pos && Hand(u.workers[w]).value !in u.chans.slots
            && (Hand(u.workers[w]) == Hand(x) || Hand(u.workers[w]).value == s.pull.pos))
      && (u.chans.slots == s.chans.slots
          || (x.Sending? && u.chans.slots == s.chans.slots[x.i := x.r] && Hand(u.workers[w]).None?))
  {
  }

  lemma SelectHand(s: World, w: nat, sel: Select)
    requires w < |s.workers| && s.workers[w].Holding? && HandOk(s, s.workers[w])
    ensures var u, x := AtSelect(s, w, s.workers[w].i, s.workers[w].item, sel), s.workers[w];
      && |u.workers| == |s.workers| && HandOk(u, u.workers[w]) && u.chans.slots == s.chans.slots
      && (Hand(u.workers[w]).Some? ==> Hand(u.workers[w]) == Hand(x))
      && u.pull == s.pull && s.hist.sent <= u.hist.sent
  {
    if sel.SelSend? && !s.chans.closed {
      var i := s.workers[w].i;
      assert (s.hist.sent + [i])[|s.hist.sent|] == i;
    }
  }

  lemma WorkKeepsHands(input: Input, s: World, w: nat, sel: Select)
    requires OrderInv(input, s) && WorkEnabled(input, s, w, sel) && HandsOk(s)
    ensures HandsOk(WorkStep(input, s, w, sel))
  {
    var u := WorkStep(input, s, w, sel);
    WorkFrame(input, s, w, sel);
    WorkHand(input, s, w, sel);
    assert HandOk(s, s.workers[w]);
    forall v | 0 <= v < |u.workers| ensures HandOk(u, u.workers[v]) {
      assert HandOk(s, s.workers[v]);
      if v != w && Hand(s.workers[v]).Some? && s.workers[w].Sending? {
        assert Hand(s.workers[v]) != Hand(s.workers[w]);
      }
    }
    forall a, b | 0 <= a < b < |u.workers| && Hand(u.workers[a]).Some?
      ensures Hand(u.workers[a]) != Hand(u.workers[b])
    {
      assert HandOk(s, s.workers[a]) && HandOk(s, s.workers[b]);
    }
  }

  lemma StepKeepsHands(input: Input, s: World, l: Label)
    requires OrderInv(input, s) && Enabled(input, s, l) && HandsOk(s)
    ensures HandsOk(Step(input, s, l))
  {
    match l
    case Work(w, sel) => WorkKeepsHands(input, s, w, sel);
    case Consume(ans) => ConsumeKeepsHands(input, s, ans);
    case _ =>
      var u := Step(input, s, l);
      forall v | 0 <= v < |u.workers| ensures HandOk(u, u.workers[v]) { assert HandOk(s, s.workers[v]); }
  }

  lemma ConsumeKeepsHands(input: Input, s: World, ans: Answer)
    requires OrderInv(input, s) && ConsumeEnabled(s) && HandsOk(s)
    ensures HandsOk(ConsumeStep(s, ans))
  {
    if !s.consumer.Spawning? {
      LeaveWorkers(s, ans);
      ConsumeSlots(s, ans);
    }
    var u := ConsumeStep(s, ans);
    forall v | 0 <= v < |u.workers| ensures HandOk(u, u.workers[v]) { assert HandOk(s, s.workers[v]); }
  }

  lemma ConsumeSlots(s: World, ans: Answer)
    requires ConsumeEnabled(s) && !s.consumer.Spawning?
    ensures ConsumeStep(s, ans).chans.slots == s.chans.slots
  {
  }

  lemma {:induction false} RunKeepsHands(input: Input, s: World, ls: seq<Label>, u: World)
    requires OrderInv(input, s) && HandsOk(s) && IsRun(input, s, ls, u)
    ensures OrderInv(input, u) && HandsOk(u)
    decreases |ls|
  {
    if ls != [] {
      StepKeepsHands(input, s, ls[0]);
      StepKeepsOrder(input, s, ls[0]);
      RunKeepsHands(input, Step(input, s, ls[0]), ls[1..], u);
    }
  }

  /** The function is called only for an item that has been enqueued, never for one that was
      dropped, and at most once: while a worker calls it for an item, the result is not
      there yet and no other worker has that item; and a result that is there stays. */
  lemma CalledOnce(input: Input, s: World, w: nat, l: Label)
    requires Reachable(input, s) && w < |s.workers| && s.workers[w].Calling?
    ensures var i := s.workers[w].i;
      && i == s.workers[w].item < |input.items| && i in s.hist.sent && i !in s.chans.slots
      && (forall v :: 0 <= v < |s.workers| && v != w ==> Hand(s.workers[v]) != Some(i))
    ensures Enabled(input, s, l) ==> s.chans.slots.Keys <= Step(input, s, l).chans.slots.Keys
  {
    var ls :| IsRun(input, Init(input.workers), ls, s);
    InitOrder(input);
    assert HandsOk(Init(input.workers));
    RunKeepsHands(input, Init(input.workers), ls, s);
    assert HandOk(s, s.workers[w]) && WorkerOk(|input.items|, s.pull, s.hist.sent, w, s.workers[w]);
    if Enabled(input, s, l) { SlotsStay(input, s, l); }
  }

  lemma SlotsStay(input: Input, s: World, l: Label)
    requires OrderInv(input, s) && HandsOk(s) && Enabled(input, s, l)
    ensures s.chans.slots.Keys <= Step(input, s, l).chans.slots.Keys
  {
    match l
    case Work(w, sel) => WorkHand(input, s, w, sel);
    case Consume(ans) => if !s.consumer.Spawning? { ConsumeSlots(s, ans); }
    case _ =>
  }

  // How much is still pulled.

  /** A bound on the items that a worker can still pull: with the context done, and after an
      early break apart from what fits into the queue. */
  function Pulls(x: Worker, done: bool): nat {
    match x
    case Locking => 1
    case NotStarted => if done then 0 else 1
    case Top => if done then 0 else 1
    case Release(_, _, ok) => if ok && !done then 1 else 0
    case Calling(_, _) => if done then 0 else 1
    case Sending(_, _) => if done then 0 else 1
    case _ => 0
  }

  function AllPulls(workers: seq<Worker>, done: bool): nat {
    if workers == [] then 0
    else AllPulls(workers[..|workers| - 1], done) + Pulls(workers[|workers| - 1], done)
  }

  lemma {:induction false} PullsUpdate(workers: seq<Worker>, w: nat, x: Worker, done: bool)
    requires w < |workers|
    ensures AllPulls(workers[w := x], done) == AllPulls(workers, done) - Pulls(workers[w], done) + Pulls(x, done)
  {
    var last := |workers| - 1;
    if w == last {
      assert workers[w := x][..last] == workers[..last];
    } else {
      assert workers[w := x][..last] == workers[..last][w := x];
      PullsUpdate(workers[..last], w, x, done);
    }
  }

  lemma {:induction false} PullsBounded(workers: seq<Worker>, done: bool)
    ensures AllPulls(workers, done) <= |workers|
  {
    if workers != [] { PullsBounded(workers[..|workers| - 1], done); }
  }

  /** With the context done. */
  lemma WorkAfterDone(input: Input, s: World, w: nat, sel: Select)
    requires WorkEnabled(input, s, w, sel) && s.nested.ctxDone
    ensures var u := WorkStep(input, s, w, sel);
      && |u.workers| == |s.workers| && u.nested.ctxDone
      && u.pull.pos + Pulls(u.workers[w], true) <= s.pull.pos + Pulls(s.workers[w], true)
  {
    WorkStops(input, s, w, sel);
    if s.workers[w].Holding? { SelectAfterDone(s, w, sel); }
    else if !Ended(s.workers[w]) { LoopAfterDone(input, s, w, sel); }
  }

  lemma SelectAfterDone(s: World, w: nat, sel: Select)
    requires w < |s.workers| && s.workers[w].Holding?
    ensures var u := AtSelect(s, w, s.workers[w].i, s.workers[w].item, sel);
      |u.workers| == |s.workers| && u.pull == s.pull && Pulls(u.workers[w], true) == 0
  {
  }

  lemma LoopAfterDone(input: Input, s: World, w: nat, sel: Select)
    requires WorkEnabled(input, s, w, sel) && !s.workers[w].Holding? && !Ended(s.workers[w]) && s.nested.ctxDone
    ensures var u := LoopStep(input, s, w, sel);
      && |u.workers| == |s.workers|
      && u.pull.pos + Pulls(u.workers[w], true) <= s.pull.pos + Pulls(s.workers[w], true)
  {
  }

  lemma StepAfterDone(input: Input, s: World, l: Label)
    requires Enabled(input, s, l) && s.nested.ctxDone
    ensures var u := Step(input, s, l);
      && u.nested.ctxDone && u.pull.pos + AllPulls(u.workers, true) <= s.pull.pos + AllPulls(s.workers, true)
  {
    match l
    case Work(w, sel) =>
      WorkFrame(input, s, w, sel);
      WorkAfterDone(input, s, w, sel);
      PullsUpdate(s.workers, w, WorkStep(input, s, w, sel).workers[w], true);
    case Consume(ans) => ConsumeAfterDone(s, ans);
    case _ =>
  }

  lemma ConsumeAfterDone(s: World, ans: Answer)
    requires ConsumeEnabled(s) && s.nested.ctxDone
    ensures var u := ConsumeStep(s, ans);
      && u.nested.ctxDone && u.pull.pos + AllPulls(u.workers, true) <= s.pull.pos + AllPulls(s.workers, true)
  {
    if s.consumer.Spawning? {
      if s.consumer.k < |s.workers| {
        PullsUpdate(s.workers, s.consumer.k, ConsumeStep(s, ans).workers[s.consumer.k], true);
      }
    } else {
      LeaveWorkers(s, ans);
      ConsumeKeepsDone(s, ans);
    }
  }

  lemma ConsumeKeepsDone(s: World, ans: Answer)
    requires ConsumeEnabled(s) && !s.consumer.Spawning?
    ensures ConsumeStep(s, ans).nested.ctxDone == s.nested.ctxDone
  {
    match s.consumer
    case Setup => assert Register(s).nested.ctxDone == s.nested.ctxDone;
    case Yielding(i, r) => assert Yield(s, i, r, ans).nested == s.nested;
    case Receiving => assert Receive(s).nested == s.nested;
    case _ =>
  }

  /** Once the nested context is done, each worker that is already past its check may pull
      one more item, and nobody else pulls any. */
  lemma {:induction false} CancelStopsPulling(input: Input, s: World, ls: seq<Label>, u: World)
    requires IsRun(input, s, ls, u) && s.nested.ctxDone
    ensures u.pull.pos <= s.pull.pos + AllPulls(s.workers, true)
    decreases |ls|
  {
    if ls != [] {
      StepAfterDone(input, s, ls[0]);
      CancelStopsPulling(input, Step(input, s, ls[0]), ls[1..], u);
    }
  }

  /** After an early break. */
  lemma WorkAfterBreak(input: Input, s: World, w: nat, sel: Select)
    requires WorkEnabled(input, s, w, sel)
    ensures var u := WorkStep(input, s, w, sel);
      && |u.workers| == |s.workers|
      && u.pull.pos + Pulls(u.workers[w], false) - |u.chans.queue|
         <= s.pull.pos + Pulls(s.workers[w], false) - |s.chans.queue|
  {
    if s.workers[w].Holding? { SelectAfterBreak(s, w, sel); }
    else { WorkLeaves(input, s, w, sel); }
  }

  lemma SelectAfterBreak(s: World, w: nat, sel: Select)
    requires w < |s.workers| && s.workers[w].Holding?
    ensures var u := AtSelect(s, w, s.workers[w].i, s.workers[w].item, sel);
      && |u.workers| == |s.workers| && u.pull == s.pull
      && Pulls(u.workers[w], false) - |u.chans.queue| <= -|s.chans.queue|
  {
  }

  lemma StepAfterBreak(input: Input, s: World, l: Label)
    requires Inv(input, s) && Enabled(input, s, l) && s.chans.earlyBreak
    ensures var u := Step(input, s, l);
      && u.chans.earlyBreak
      && u.pull.pos + AllPulls(u.workers, false) - |u.chans.queue|
         <= s.pull.pos + AllPulls(s.workers, false) - |s.chans.queue|
  {
    match l
    case Work(w, sel) =>
      WorkFrame(input, s, w, sel);
      WorkAfterBreak(input, s, w, sel);
      WorkQueue(input, s, w, sel);
      PullsUpdate(s.workers, w, WorkStep(input, s, w, sel).workers[w], false);
    case Consume(ans) => LeaveWorkers(s, ans);
    case _ =>
  }

  /** After an early break the workers pull at most one item each, and one for each place
      that is free in the results channel. */
  lemma {:induction false} BreakStopsPulling(input: Input, s: World, ls: seq<Label>, u: World)
    requires Inv(input, s) && IsRun(input, s, ls, u) && s.chans.earlyBreak
    ensures u.pull.pos <= s.pull.pos + input.workers + (input.workers - |s.chans.queue|)
  {
    BreakBounds(input, s, ls, u);
    PullsBounded(s.workers, false);
  }

  lemma {:induction false} BreakBounds(input: Input, s: World, ls: seq<Label>, u: World)
    requires Inv(input, s) && IsRun(input, s, ls, u) && s.chans.earlyBreak
    ensures Inv(input, u)
    ensures u.pull.pos + AllPulls(u.workers, false) - |u.chans.queue|
            <= s.pull.pos + AllPulls(s.workers, false) - |s.chans.queue|
    decreases |ls|
  {
    if ls != [] {
      StepAfterBreak(input, s, ls[0]);
      StepKeepsInv(input, s, ls[0]);
      BreakBounds(input, Step(input, s, ls[0]), ls[1..], u);
    }
  }

  /** When the operator has returned its stopper is stopping, and nothing is ever pulled
      from the input again. */
  lemma {:induction false} NothingAfterReturn(input: Input, s: World, ls: seq<Label>, u: World)
    requires Inv(input, s) && IsRun(input, s, ls, u) && s.consumer.Finished?
    ensures s.nested.stopping && s.pull.closed && u.pull.pos == s.pull.pos && u.yielded == s.yielded
    decreases |ls|
  {
    if ls != [] {
      var v := Step(input, s, ls[0]);
      StepKeepsInv(input, s, ls[0]);
      if ls[0].Work? { WorkClosed(input, s, ls[0].w, ls[0].sel); }
      NothingAfterReturn(input, v, ls[1..], u);
    }
  }

  lemma WorkClosed(input: Input, s: World, w: nat, sel: Select)
    requires WorkEnabled(input, s, w, sel) && s.pull.closed
    ensures var u := WorkStep(input, s, w, sel);
      u.pull.pos == s.pull.pos && u.yielded == s.yielded && u.consumer == s.consumer
  {
    if !s.workers[w].Holding? { WorkLeaves(input, s, w, sel); }
  }

  // The error handler.

  ghost predicate SomeHalting(s: World) {
    exists w :: 0 <= w < |s.workers| && s.workers[w].Halting?
  }

  ghost predicate HandlerOk(input: Input, s: World) {
    && (SomeHalting(s) ==> input.handler.HandlerStop?)
    && (input.handler.HandlerStop? && s.hist.failed ==> s.nested.stopping || SomeFailing(s) || SomeHalting(s))
  }

  lemma WorkKeepsHandler(input: Input, s: World, w: nat, sel: Select)
    requires HandlerOk(input, s) && WorkEnabled(input, s, w, sel)
    ensures HandlerOk(input, WorkStep(input, s, w, sel))
  {
    var u := WorkStep(input, s, w, sel);
    WorkFrame(input, s, w, sel);
    WorkStops(input, s, w, sel);
    WorkFaults(input, s, w, sel);
    WorkHandles(input, s, w, sel);
    if v :| 0 <= v < |u.workers| && u.workers[v].Halting? && v != w { assert s.workers[v].Halting?; }
    if u.workers[w].Failed? || u.workers[w].Halting? {
      assert SomeFailing(u) || SomeHalting(u);
    } else if input.handler.HandlerStop? && s.hist.failed && !s.nested.stopping && !u.nested.stopping {
      var v :| 0 <= v < |s.workers| && (s.workers[v].Failed? || s.workers[v].Halting?);
      assert v != w && u.workers[v] == s.workers[v];
    }
  }

  lemma WorkHandles(input: Input, s: World, w: nat, sel: Select)
    requires WorkEnabled(input, s, w, sel)
    ensures var u, x := WorkStep(input, s, w, sel), s.workers[w];
      && |u.workers| == |s.workers|
      && (u.workers[w].Halting? <==> x.Failed? && input.handler.HandlerStop?)
      && (x.Halting? ==> u.nested.stopping)
      && (s.nested.stopping ==> u.nested.stopping)
  {
    WorkStops(input, s, w, sel);
  }

  lemma StepKeepsHandler(input: Input, s: World, l: Label)
    requires OrderInv(input, s) && HandlerOk(input, s) && Enabled(input, s, l)
    ensures HandlerOk(input, Step(input, s, l))
  {
    if l.Work? {
      WorkKeepsHandler(input, s, l.w, l.sel);
    } else {
      var u := Step(input, s, l);
      OtherHandler(input, s, l);
      if v :| 0 <= v < |s.workers| && (s.workers[v].Failed? || s.workers[v].Halting?) {
        assert u.workers[v] == s.workers[v];
      }
    }
  }

  lemma OtherHandler(input: Input, s: World, l: Label)
    requires OrderInv(input, s) && Enabled(input, s, l) && !l.Work?
    ensures var u := Step(input, s, l);
      && |u.workers| == |s.workers| && u.hist.failed == s.hist.failed
      && (s.nested.stopping ==> u.nested.stopping)
      && forall w :: 0 <= w < |s.workers| ==>
           if s.workers[w].NotStarted? then !u.workers[w].Failed? && !u.workers[w].Halting?
           else u.workers[w] == s.workers[w]
  {
    if l.Consume? { ConsumeHandler(s, l.ans); }
  }

  lemma ConsumeHandler(s: World, ans: Answer)
    requires SpawnOk(s) && ConsumeEnabled(s)
    ensures var u := ConsumeStep(s, ans);
      && |u.workers| == |s.workers| && u.hist.failed == s.hist.failed
      && (s.nested.stopping ==> u.nested.stopping)
      && forall w :: 0 <= w < |s.workers| ==>
           if s.workers[w].NotStarted? then !u.workers[w].Failed? && !u.workers[w].Halting?
           else u.workers[w] == s.workers[w]
  {
    if s.consumer.Spawning? {
      if s.consumer.k < |s.workers| { assert s.workers[s.consumer.k].NotStarted?; }
    } else {
      LeaveWorkers(s, ans);
      ConsumeHistory(s, ans);
    }
  }

  lemma {:induction false} RunKeepsHandler(input: Input, s: World, ls: seq<Label>, u: World)
    requires OrderInv(input, s) && HandlerOk(input, s) && IsRun(input, s, ls, u)
    ensures HandlerOk(input, u)
    decreases |ls|
  {
    if ls != [] {
      StepKeepsHandler(input, s, ls[0]);
      StepKeepsOrder(input, s, ls[0]);
      RunKeepsHandler(input, Step(input, s, ls[0]), ls[1..], u);
    }
  }

  /** Under the default handler a failing task stops the nested stopper: once the handlers of
      all failed tasks have returned, it is stopping.  No other handler does so. */
  lemma FailingTaskStops(input: Input, s: World)
    requires Reachable(input, s)
    ensures input.handler.HandlerStop? && s.hist.failed && !SomeFailing(s) && !SomeHalting(s) ==> s.nested.stopping
    ensures !input.handler.HandlerStop? ==> !SomeHalting(s)
  {
    var ls :| IsRun(input, Init(input.workers), ls, s);
    InitOrder(input);
    assert HandlerOk(input, Init(input.workers));
    RunKeepsHandler(input, Init(input.workers), ls, s);
  }
}
