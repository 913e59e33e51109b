/**
  Where each index of the unordered operators is, under every schedule and disturbance.
 */
module UnorderedPlaces {
  import opened SeqStopper
  import opened Unordered

  function Indices(ys: seq<Pair>): seq<nat> {
    seq(|ys|, k requires 0 <= k < |ys| => ys[k].0)
  }

  function InHand(x: Worker, i: nat): nat {
    if (x.Calling? || x.Sending?) && x.i == i then 1 else 0
  }

  function InHands(workers: seq<Worker>, i: nat): nat {
    if workers == [] then 0
    else InHands(workers[..|workers| - 1], i) + InHand(workers[|workers| - 1], i)
  }

  function Delivered(out: Output, i: nat): nat {
    multiset(Indices(out.delivered))[i] + multiset(out.dropped)[i]
  }

  /** All places in which index i is: in a worker's hands, delivered, or dropped. */
  function Places(s: World, i: nat): nat {
    InHands(s.workers, i) + Delivered(s.out, i)
  }

  ghost predicate OncePlaced(s: World, i: nat) {
    Places(s, i) == if i < s.pull.pos then 1 else 0
  }

  ghost predicate PlacesOk(s: World) {
    forall i: nat :: OncePlaced(s, i)
  }

  predicate Correct(input: Input, y: Pair) {
    y.0 < |input.items| && y.1 == input.fn(y.0, input.items[y.0])
  }

  ghost predicate WorkerOk(input: Input, x: Worker) {
    && (x.Calling? ==> x.item == x.i < |input.items|)
    && (x.Sending? ==> Correct(input, (x.i, x.r)))
  }

  ghost predicate WorkersOk(input: Input, workers: seq<Worker>) {
    |workers| == input.workers && forall w :: 0 <= w < |workers| ==> WorkerOk(input, workers[w])
  }

  function Failing(input: Input, ys: seq<Pair>): seq<Pair> {
    if ys == [] then []
    else
      var y := ys[|ys| - 1];
      Failing(input, ys[..|ys| - 1]) + (if input.failed(y.1) then [y] else [])
  }

  ghost predicate PullerOk(input: Input, p: Puller) {
    && p.pos <= |input.items|
    && (!p.closed ==> p.pos == p.idx || (p.pos == |input.items| && p.pos < p.idx))
  }

  function Current(c: Consumer): seq<Pair> {
    if c.Yielding? then [c.y] else []
  }

  ghost predicate OutputOk(input: Input, c: Consumer, out: Output) {
    && (forall k :: 0 <= k < |out.delivered| ==> Correct(input, out.delivered[k]))
    && (!input.collects ==> out.delivered == out.yielded + Current(c) + out.queue && out.errs == [])
    && (input.collects ==> out.errs == Failing(input, out.delivered) && out.queue == [])
    && |out.queue| <= input.workers
  }

  ghost predicate PlaceInv(input: Input, s: World) {
    && PlacesOk(s) && PullerOk(input, s.pull) && WorkersOk(input, s.workers)
    && OutputOk(input, s.consumer, s.out)
  }

  lemma {:induction false} HandsUpdate(workers: seq<Worker>, w: nat, x: Worker, i: nat)
    requires w < |workers|
    ensures InHands(workers[w := x], i) == InHands(workers, i) - InHand(workers[w], i) + InHand(x, i)
  {
    var last := |workers| - 1;
    if w == last {
      assert workers[w := x][..last] == workers[..last];
    } else {
      assert workers[w := x][..last] == workers[..last][w := x];
      HandsUpdate(workers[..last], w, x, i);
    }
  }

  lemma {:induction false} HandsNone(workers: seq<Worker>, i: nat)
    requires forall w :: 0 <= w < |workers| ==> InHand(workers[w], i) == 0
    ensures InHands(workers, i) == 0
  {
    if workers != [] { HandsNone(workers[..|workers| - 1], i); }
  }

  lemma InitPlaces(input: Input)
    ensures PlaceInv(input, Init(input.workers))
  {
    forall i: nat ensures OncePlaced(Init(input.workers), i) { HandsNone(Init(input.workers).workers, i); }
  }

  // Steps of a worker.

  /** What a worker's step leaves alone. */
  ghost predicate WorkFrames(s: World, u: World, w: nat)
    requires w < |s.workers|
  {
    && |u.workers| == |s.workers| && u.workers == s.workers[w := u.workers[w]]
    && !u.workers[w].NotStarted? && !u.workers[w].Refused? && Active(s.workers[w])
    && u.consumer == s.consumer && u.report == s.report && u.cancelled == s.cancelled
    && u.pull.closed == s.pull.closed && s.pull.pos <= u.pull.pos
    && u.out.closed == s.out.closed && u.out.earlyBreak == s.out.earlyBreak && u.out.yielded == s.out.yielded
    && u.hist.(failed := s.hist.failed, faults := s.hist.faults) == s.hist && (s.hist.failed ==> u.hist.failed)
  }

  lemma WorkFrame(input: Input, s: World, w: nat, sel: Select)
    requires WorkEnabled(input, s, w, sel)
    ensures WorkFrames(s, WorkStep(input, s, w, sel), w)
  {
    if s.workers[w].Sending? { SendFrame(input, s, w, sel); }
    else if Ended(s.workers[w]) { EndFrame(input, s, w); }
    else { LoopFrame(input, s, w); }
  }

  lemma SendFrame(input: Input, s: World, w: nat, sel: Select)
    requires w < |s.workers| && s.workers[w].Sending?
    ensures WorkFrames(s, SendStep(input, s, w, sel), w)
  {
  }

  lemma EndFrame(input: Input, s: World, w: nat)
    requires w < |s.workers| && Ended(s.workers[w])
    ensures WorkFrames(s, EndStep(input, s, w), w)
    ensures EndStep(input, s, w).out == s.out && EndStep(input, s, w).pull == s.pull
    ensures EndStep(input, s, w).hist == s.hist
  {
  }

  lemma LoopFrame(input: Input, s: World, w: nat)
    requires w < |s.workers| && Active(s.workers[w]) && !s.workers[w].Sending? && !Ended(s.workers[w])
    requires s.workers[w].Calling? ==> s.workers[w].item < |input.items|
    ensures WorkFrames(s, LoopStep(input, s, w), w)
    ensures LoopStep(input, s, w).out == s.out && LoopStep(input, s, w).nested == s.nested
  {
    if s.workers[w].Pulling? { PullFrame(input, s, w); }
  }

  lemma PullFrame(input: Input, s: World, w: nat)
    requires w < |s.workers| && s.workers[w].Pulling?
    ensures WorkFrames(s, LoopStep(input, s, w), w)
    ensures LoopStep(input, s, w).out == s.out && LoopStep(input, s, w).nested == s.nested
  {
    if PullPanics(input, s.pull) { assert LoopStep(input, s, w).hist.faults == s.hist.faults + multiset{InputPanic}; }
    else { assert LoopStep(input, s, w).hist == s.hist; }
  }

  lemma DeliverCounts(input: Input, out: Output, y: Pair, sends: bool, j: nat)
    ensures Delivered(Deliver(input, out, y, sends), j) == Delivered(out, j) + (if y.0 == j then 1 else 0)
  {
    if input.collects || sends {
      assert Indices(out.delivered + [y]) == Indices(out.delivered) + [y.0];
    }
  }

  lemma DeliverKeeps(input: Input, c: Consumer, out: Output, y: Pair, sends: bool)
    requires OutputOk(input, c, out) && Correct(input, y)
    requires sends && !input.collects ==> |out.queue| < input.workers
    ensures OutputOk(input, c, Deliver(input, out, y, sends))
  {
    assert (out.delivered + [y])[..|out.delivered|] == out.delivered;
    var sent := out.yielded + Current(c);
    assert sent + out.queue + [y] == sent + (out.queue + [y]);
  }

  lemma SendPlaces(input: Input, s: World, w: nat, sel: Select, j: nat)
    requires WorkEnabled(input, s, w, sel) && s.workers[w].Sending? && OncePlaced(s, j)
    ensures OncePlaced(SendStep(input, s, w, sel), j)
  {
    var u := SendStep(input, s, w, sel);
    SendFrame(input, s, w, sel);
    HandsUpdate(s.workers, w, u.workers[w], j);
    DeliverCounts(input, s.out, (s.workers[w].i, s.workers[w].r), sel.SelSend? && !s.out.closed, j);
  }

  lemma LoopPlaces(input: Input, s: World, w: nat, sel: Select, j: nat)
    requires PlaceInv(input, s) && WorkEnabled(input, s, w, sel)
    requires !s.workers[w].Sending? && !Ended(s.workers[w])
    ensures OncePlaced(LoopStep(input, s, w), j)
  {
    assert OncePlaced(s, j);
    LoopFrame(input, s, w);
    HandsUpdate(s.workers, w, LoopStep(input, s, w).workers[w], j);
    LoopHands(input, s, w, sel, j);
  }

  lemma LoopHands(input: Input, s: World, w: nat, sel: Select, j: nat)
    requires PlaceInv(input, s) && WorkEnabled(input, s, w, sel)
    requires !s.workers[w].Sending? && !Ended(s.workers[w])
    ensures var u := LoopStep(input, s, w);
      && |u.workers| == |s.workers|
      && InHand(u.workers[w], j) - InHand(s.workers[w], j)
         == (if j < u.pull.pos then 1 else 0) - (if j < s.pull.pos then 1 else 0)
  {
  }

  lemma EndPlaces(input: Input, s: World, w: nat, j: nat)
    requires w < |s.workers| && Ended(s.workers[w]) && OncePlaced(s, j)
    ensures OncePlaced(EndStep(input, s, w), j)
  {
    EndFrame(input, s, w);
    HandsUpdate(s.workers, w, EndStep(input, s, w).workers[w], j);
    EndHands(input, s, w, j);
  }

  lemma EndHands(input: Input, s: World, w: nat, j: nat)
    requires w < |s.workers| && Ended(s.workers[w])
    ensures var u := EndStep(input, s, w); |u.workers| == |s.workers| && InHand(u.workers[w], j) == 0
  {
  }

  lemma WorkPlaces(input: Input, s: World, w: nat, sel: Select, j: nat)
    requires PlaceInv(input, s) && WorkEnabled(input, s, w, sel)
    ensures OncePlaced(WorkStep(input, s, w, sel), j)
  {
    assert OncePlaced(s, j);
    if s.workers[w].Sending? { SendPlaces(input, s, w, sel, j); }
    else if Ended(s.workers[w]) { EndPlaces(input, s, w, j); }
    else { LoopPlaces(input, s, w, sel, j); }
  }

  lemma WorkKeepsOutput(input: Input, s: World, w: nat, sel: Select)
    requires PlaceInv(input, s) && WorkEnabled(input, s, w, sel)
    ensures OutputOk(input, s.consumer, WorkStep(input, s, w, sel).out)
  {
    assert WorkerOk(input, s.workers[w]);
    if s.workers[w].Sending? {
      DeliverKeeps(input, s.consumer, s.out, (s.workers[w].i, s.workers[w].r), sel.SelSend? && !s.out.closed);
    } else if Ended(s.workers[w]) {
      EndFrame(input, s, w);
    } else {
      LoopFrame(input, s, w);
    }
  }

  lemma WorkKeepsWorkers(input: Input, s: World, w: nat, sel: Select)
    requires PlaceInv(input, s) && WorkEnabled(input, s, w, sel)
    ensures var u := WorkStep(input, s, w, sel);
      PullerOk(input, u.pull) && WorkersOk(input, u.workers)
  {
    assert WorkerOk(input, s.workers[w]);
    WorkFrame(input, s, w, sel);
    WorkerSelf(input, s, w, sel);
  }

  lemma WorkerSelf(input: Input, s: World, w: nat, sel: Select)
    requires PlaceInv(input, s) && WorkEnabled(input, s, w, sel) && WorkerOk(input, s.workers[w])
    ensures var u := WorkStep(input, s, w, sel);
      |u.workers| == |s.workers| && PullerOk(input, u.pull) && WorkerOk(input, u.workers[w])
  {
  }

  lemma WorkKeepsPlaces(input: Input, s: World, w: nat, sel: Select)
    requires PlaceInv(input, s) && WorkEnabled(input, s, w, sel)
    ensures PlaceInv(input, WorkStep(input, s, w, sel))
  {
    WorkFrame(input, s, w, sel);
    forall j: nat ensures OncePlaced(WorkStep(input, s, w, sel), j) { WorkPlaces(input, s, w, sel, j); }
    WorkKeepsOutput(input, s, w, sel);
    WorkKeepsWorkers(input, s, w, sel);
  }

  // The other steps.

  /** What the other steps do to the results and the workers. */
  lemma ConsumeKeepsOutput(input: Input, s: World, ans: Answer)
    requires OutputOk(input, s.consumer, s.out) && ConsumeEnabled(input, s)
    requires input.collects ==> !s.consumer.Receiving? && !s.consumer.Yielding?
    ensures var u := ConsumeStep(input, s, ans);
      OutputOk(input, u.consumer, u.out) && u.out.delivered == s.out.delivered && u.out.dropped == s.out.dropped
  {
    if s.consumer.Receiving? { ReceiveKeepsOutput(input, s); }
    else if s.consumer.Yielding? { YieldKeepsOutput(input, s, ans); }
    else { assert Current(s.consumer) == [] == Current(ConsumeStep(input, s, ans).consumer); }
  }

  lemma ReceiveKeepsOutput(input: Input, s: World)
    requires OutputOk(input, s.consumer, s.out) && !input.collects && s.consumer.Receiving?
    ensures OutputOk(input, Receive(s).consumer, Receive(s).out)
  {
    var ys, q := s.out.yielded, s.out.queue;
    assert ys + [] + q == ys + q;
    if q != [] {
      assert q == [q[0]] + q[1..];
      assert ys + q == ys + [q[0]] + q[1..];
    }
  }

  lemma YieldKeepsOutput(input: Input, s: World, ans: Answer)
    requires OutputOk(input, s.consumer, s.out) && !input.collects && s.consumer.Yielding?
    ensures var u := Yield(s, s.consumer.y, ans); OutputOk(input, u.consumer, u.out)
  {
    var ys, y := s.out.yielded, s.consumer.y;
    assert (ys + [y]) + [] == ys + [y];
  }

  lemma ConsumeWorkers(input: Input, s: World, ans: Answer)
    requires ConsumeEnabled(input, s)
    ensures var u := ConsumeStep(input, s, ans);
      && |u.workers| == |s.workers| && u.pull.(closed := s.pull.closed) == s.pull
      && (s.pull.closed ==> u.pull.closed)
      && (!s.consumer.Spawning? || s.consumer.k >= |s.workers| ==> u.workers == s.workers)
      && (s.consumer.Spawning? && s.consumer.k < |s.workers| ==>
            var x := u.workers[s.consumer.k];
            (x.Top? || x.Refused?) && u.workers == s.workers[s.consumer.k := x])
  {
  }

  /** The worker that is started next is not started yet. */
  ghost predicate SpawnOk(s: World) {
    forall w :: 0 <= w < |s.workers| ==> (s.workers[w].NotStarted? <==> w >= Spawned(s))
  }

  function Spawned(s: World): nat {
    match s.consumer
    case Setup => 0
    case Spawning(k) => k
    case _ => |s.workers|
  }

  ghost predicate CollectsOk(input: Input, c: Consumer) {
    input.collects ==> !c.Receiving? && !c.Yielding? && !c.Breaking?
  }

  ghost predicate BaseInv(input: Input, s: World) {
    PlaceInv(input, s) && SpawnOk(s) && CollectsOk(input, s.consumer)
  }

  lemma ConsumePlaces(input: Input, s: World, ans: Answer, j: nat)
    requires BaseInv(input, s) && ConsumeEnabled(input, s)
    ensures OncePlaced(ConsumeStep(input, s, ans), j)
  {
    assert OncePlaced(s, j);
    ConsumeKeepsOutput(input, s, ans);
    ConsumeWorkers(input, s, ans);
    if s.consumer.Spawning? && s.consumer.k < |s.workers| {
      assert s.workers[s.consumer.k].NotStarted?;
      HandsUpdate(s.workers, s.consumer.k, ConsumeStep(input, s, ans).workers[s.consumer.k], j);
    }
  }

  lemma ConsumeKeepsBase(input: Input, s: World, ans: Answer)
    requires BaseInv(input, s) && ConsumeEnabled(input, s)
    ensures BaseInv(input, ConsumeStep(input, s, ans))
  {
    forall j: nat ensures OncePlaced(ConsumeStep(input, s, ans), j) { ConsumePlaces(input, s, ans, j); }
    ConsumeKeepsOutput(input, s, ans);
    ConsumeWorkers(input, s, ans);
    ConsumeSpawns(input, s, ans);
  }

  lemma ConsumeSpawns(input: Input, s: World, ans: Answer)
    requires SpawnOk(s) && CollectsOk(input, s.consumer) && ConsumeEnabled(input, s)
    ensures SpawnOk(ConsumeStep(input, s, ans)) && CollectsOk(input, ConsumeStep(input, s, ans).consumer)
  {
    ConsumeWorkers(input, s, ans);
  }

  lemma StepKeepsBase(input: Input, s: World, l: Label)
    requires BaseInv(input, s) && Enabled(input, s, l)
    ensures BaseInv(input, Step(input, s, l))
  {
    match l
    case Work(w, sel) =>
      WorkFrame(input, s, w, sel);
      WorkKeepsPlaces(input, s, w, sel);
    case Consume(ans) => ConsumeKeepsBase(input, s, ans);
    case _ =>
      var u := Step(input, s, l);
      assert u.workers == s.workers && u.pull == s.pull && u.consumer == s.consumer;
      forall j: nat ensures OncePlaced(u, j) { assert OncePlaced(s, j); }
  }

  lemma {:induction false} RunKeepsBase(input: Input, s: World, ls: seq<Label>, u: World)
    requires BaseInv(input, s) && IsRun(input, s, ls, u)
    ensures BaseInv(input, u)
    decreases |ls|
  {
    if ls != [] {
      StepKeepsBase(input, s, ls[0]);
      RunKeepsBase(input, Step(input, s, ls[0]), ls[1..], u);
    }
  }

  lemma ReachableBase(input: Input, s: World)
    requires Reachable(input, s)
    ensures BaseInv(input, s)
  {
    var ls :| IsRun(input, Init(input.workers), ls, s);
    InitPlaces(input);
    RunKeepsBase(input, Init(input.workers), ls, s);
  }

  /** No index is ever processed twice: each pulled index is in exactly one place. */
  lemma EachIndexOnce(input: Input, s: World, i: nat)
    requires Reachable(input, s)
    ensures Places(s, i) == if i < s.pull.pos then 1 else 0
  {
    ReachableBase(input, s);
    assert OncePlaced(s, i);
  }

  // Multisets of results.

  function AllResults(input: Input): seq<Pair> {
    seq(|input.items|, i requires 0 <= i < |input.items| => (i, input.fn(i, input.items[i])))
  }

  /** Among correct pairs the pair of an index occurs as often as the index. */
  lemma {:induction false} PairCount(input: Input, ys: seq<Pair>, y: Pair)
    requires forall k :: 0 <= k < |ys| ==> Correct(input, ys[k])
    ensures multiset(ys)[y] == if Correct(input, y) then multiset(Indices(ys))[y.0] else 0
  {
    if ys != [] {
      var last := |ys| - 1;
      PairCount(input, ys[..last], y);
      assert ys == ys[..last] + [ys[last]];
      assert Indices(ys) == Indices(ys[..last]) + [ys[last].0];
    }
  }

  lemma {:induction false} CountUpTo(n: nat, i: nat)
    ensures multiset(seq(n, k requires 0 <= k < n => k))[i] == if i < n then 1 else 0
  {
    var xs := seq(n, k requires 0 <= k < n => k);
    if n > 0 {
      var ys := seq(n - 1, k requires 0 <= k < n - 1 => k);
      CountUpTo(n - 1, i);
      assert xs == ys + [n - 1];
    }
  }

  lemma AllCount(input: Input, y: Pair)
    ensures multiset(AllResults(input))[y] == if Correct(input, y) then 1 else 0
  {
    PairCount(input, AllResults(input), y);
    var n := |input.items|;
    assert Indices(AllResults(input)) == seq(n, k requires 0 <= k < n => k);
    CountUpTo(n, y.0);
  }

  /** MapUnordered yields a sub-multiset of all results under every schedule, whatever is
      cancelled, broken off or expired. */
  lemma YieldsSubMultiset(input: Input, s: World)
    requires Reachable(input, s) && !input.collects
    ensures multiset(s.out.yielded) <= multiset(AllResults(input))
  {
    ReachableBase(input, s);
    var more := Current(s.consumer) + s.out.queue;
    assert s.out.delivered == s.out.yielded + more;
    forall y ensures multiset(s.out.yielded)[y] <= multiset(AllResults(input))[y] {
      PairCount(input, s.out.delivered, y);
      AllCount(input, y);
      assert OncePlaced(s, y.0);
      assert multiset(s.out.delivered) == multiset(s.out.yielded) + multiset(more);
    }
  }

  /** Nobody holds an item, nothing was dropped, and the input is exhausted. */
  ghost predicate AllOut(input: Input, s: World) {
    && s.pull.pos == |input.items| && s.out.dropped == []
    && forall w :: 0 <= w < |s.workers| ==> !s.workers[w].Calling? && !s.workers[w].Sending?
  }

  lemma DeliveredOnce(input: Input, s: World, i: nat)
    requires PlaceInv(input, s) && AllOut(input, s)
    ensures multiset(Indices(s.out.delivered))[i] == if i < |input.items| then 1 else 0
  {
    assert OncePlaced(s, i);
    HandsNone(s.workers, i);
  }

  lemma AllDelivered(input: Input, s: World)
    requires PlaceInv(input, s) && AllOut(input, s)
    ensures multiset(s.out.delivered) == multiset(AllResults(input))
  {
    forall y ensures multiset(s.out.delivered)[y] == multiset(AllResults(input))[y] {
      PairCount(input, s.out.delivered, y);
      AllCount(input, y);
      DeliveredOnce(input, s, y.0);
    }
  }

  lemma {:induction false} FailingCount(input: Input, ys: seq<Pair>, y: Pair)
    ensures multiset(Failing(input, ys))[y] == if input.failed(y.1) then multiset(ys)[y] else 0
  {
    if ys != [] {
      var last := |ys| - 1;
      FailingCount(input, ys[..last], y);
      assert ys == ys[..last] + [ys[last]];
    }
  }

  /** When all is delivered: the results of MapUnordered, the failures of ForEach, and that
      fn was called exactly once for each index. */
  ghost predicate Complete(input: Input, s: World) {
    && (!input.collects ==> multiset(s.out.yielded) == multiset(AllResults(input)))
    && (input.collects ==> multiset(s.out.errs) == multiset(Failing(input, AllResults(input))))
    && forall i: nat :: multiset(Indices(s.out.delivered))[i] == if i < |input.items| then 1 else 0
  }

  lemma OutMeansComplete(input: Input, s: World)
    requires PlaceInv(input, s) && AllOut(input, s) && s.out.queue == [] && Current(s.consumer) == []
    ensures Complete(input, s)
  {
    AllDelivered(input, s);
    assert s.out.yielded + [] + [] == s.out.yielded;
    forall y ensures multiset(Failing(input, s.out.delivered))[y] == multiset(Failing(input, AllResults(input)))[y] {
      FailingCount(input, s.out.delivered, y);
      FailingCount(input, AllResults(input), y);
    }
    forall i: nat ensures multiset(Indices(s.out.delivered))[i] == if i < |input.items| then 1 else 0 {
      DeliveredOnce(input, s, i);
    }
  }
}
