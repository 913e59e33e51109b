/**
  Ordered Map under every schedule, with cancellations, breaks and expired grace
  periods: what is yielded is right, in order, and boundedly buffered.
 */
module OrderedMapOrder {
  import opened Options
  import opened SeqStopper
  import opened OrderedMap

  predicate InMutex(x: Worker) {
    x.Holding? || x.Release? || x.Empty?
  }

  ghost predicate Increasing(xs: seq<nat>) {
    forall j, k :: 0 <= j < k < |xs| ==> xs[j] < xs[k]
  }

  ghost predicate AllBelow(xs: seq<nat>, bound: int) {
    forall k :: 0 <= k < |xs| ==> xs[k] < bound
  }

  /** A worker's place in the protocol. */
  ghost predicate WorkerOk(n: nat, p: Puller, sent: seq<nat>, w: nat, x: Worker) {
    && (InMutex(x) ==> p.mutex == Some(w))
    && (x.Holding? ==> x.item == x.i == p.pos - 1 && AllBelow(sent, x.i))
    && (x.Release? || x.Calling? ==> x.item == x.i < n)
  }

  ghost predicate WorkersOk(input: Input, s: World) {
    && |s.workers| == input.workers
    && forall w :: 0 <= w < |s.workers| ==> WorkerOk(|input.items|, s.pull, s.hist.sent, w, s.workers[w])
  }

  ghost predicate PullerOk(n: nat, p: Puller) {
    && p.pos <= n && p.pos <= p.idx
    && (!p.closed ==> p.pos == p.idx || (p.pos == n && n < p.idx))
  }

  /** One if the holder of the mutex is at its select. */
  function Held(s: World): nat {
    if s.pull.mutex.Some? && s.pull.mutex.value < |s.workers| && s.workers[s.pull.mutex.value].Holding?
    then 1 else 0
  }

  ghost predicate SentOk(s: World) {
    && Increasing(s.hist.sent) && AllBelow(s.hist.sent, s.pull.pos)
    && |s.hist.sent| + s.hist.dropped + Held(s) == s.pull.pos
  }

  function Current(c: Consumer): seq<nat> {
    if c.Waiting? || c.Yielding? then [c.i] else []
  }

  function Indices(ys: seq<(nat, Result)>): seq<nat> {
    seq(|ys|, k requires 0 <= k < |ys| => ys[k].0)
  }

  /** Everything sent is yielded, in the consumer's hands or queued, in this order. */
  ghost predicate FlowOk(input: Input, s: World) {
    && s.hist.sent == Indices(s.yielded) + Current(s.consumer) + s.chans.queue
    && |s.chans.queue| <= input.workers
  }

  /** The pair (i, r) is an index of the input and its callback's result. */
  ghost predicate Correct(input: Input, i: nat, r: Result) {
    i < |input.items| && r == input.fn(i, input.items[i])
  }

  ghost predicate ValuesOk(input: Input, s: World) {
    && (forall w :: 0 <= w < |s.workers| && s.workers[w].Sending? ==>
          Correct(input, s.workers[w].i, s.workers[w].r))
    && (forall i :: i in s.chans.slots ==> Correct(input, i, s.chans.slots[i]))
    && (s.consumer.Yielding? ==> Correct(input, s.consumer.i, s.consumer.r))
    && (forall k :: 0 <= k < |s.yielded| ==> Correct(input, s.yielded[k].0, s.yielded[k].1))
  }

  /** How many workers the spawning loop has come to. */
  function Spawned(s: World): nat {
    match s.consumer
    case Setup => 0
    case Spawning(k) => k
    case _ => |s.workers|
  }

  ghost predicate SpawnOk(s: World) {
    forall w :: 0 <= w < |s.workers| ==> (s.workers[w].NotStarted? <==> w >= Spawned(s))
  }

  ghost predicate OrderInv(input: Input, s: World) {
    && SpawnOk(s)
    && WorkersOk(input, s) && PullerOk(|input.items|, s.pull) && SentOk(s)
    && FlowOk(input, s) && ValuesOk(input, s)
  }

  lemma InitOrder(input: Input)
    ensures OrderInv(input, Init(input.workers))
  {
    var s := Init(input.workers);
    InitWorkers(input);
    assert FlowOk(input, s);
    assert SentOk(s);
    assert ValuesOk(input, s);
  }

  lemma InitWorkers(input: Input)
    ensures WorkersOk(input, Init(input.workers)) && SpawnOk(Init(input.workers))
  {
  }

  lemma SelectKeepsOrder(input: Input, s: World, w: nat, sel: Select)
    requires OrderInv(input, s) && WorkEnabled(input, s, w, sel) && s.workers[w].Holding?
    ensures OrderInv(input, WorkStep(input, s, w, sel))
  {
    assert WorkerOk(|input.items|, s.pull, s.hist.sent, w, s.workers[w]);
    SelectKeepsWorkers(input, s, w, sel);
    SelectKeepsFlow(input, s, w, sel);
    SelectKeepsValues(input, s, w, sel);
  }

  lemma SelectKeepsWorkers(input: Input, s: World, w: nat, sel: Select)
    requires OrderInv(input, s) && WorkEnabled(input, s, w, sel) && s.workers[w].Holding?
    requires WorkerOk(|input.items|, s.pull, s.hist.sent, w, s.workers[w])
    ensures WorkersOk(input, WorkStep(input, s, w, sel)) && SpawnOk(WorkStep(input, s, w, sel))
  {
    var u := WorkStep(input, s, w, sel);
    forall v | 0 <= v < |u.workers|
      ensures WorkerOk(|input.items|, u.pull, u.hist.sent, v, u.workers[v])
    {
      assert WorkerOk(|input.items|, s.pull, s.hist.sent, v, s.workers[v]);
    }
  }

  lemma SelectKeepsFlow(input: Input, s: World, w: nat, sel: Select)
    requires OrderInv(input, s) && WorkEnabled(input, s, w, sel) && s.workers[w].Holding?
    requires WorkerOk(|input.items|, s.pull, s.hist.sent, w, s.workers[w])
    ensures var u := WorkStep(input, s, w, sel);
      SentOk(u) && FlowOk(input, u) && u.pull == s.pull
  {
    SelectHeld(input, s, w, sel);
    SelectFlow(s, w, sel);
    if sel.SelSend? && !s.chans.closed {
      SendsInOrder(input, s, s.workers[w].i);
    }
  }

  lemma SelectHeld(input: Input, s: World, w: nat, sel: Select)
    requires WorkEnabled(input, s, w, sel) && s.workers[w].Holding? && s.pull.mutex == Some(w)
    ensures Held(s) == 1 && Held(WorkStep(input, s, w, sel)) == 0
  {
  }

  /** What the select does to the results on their way. */
  lemma SelectFlow(s: World, w: nat, sel: Select)
    requires w < |s.workers| && s.workers[w].Holding?
    ensures var i, u := s.workers[w].i, AtSelect(s, w, s.workers[w].i, s.workers[w].item, sel);
      && u.pull == s.pull && u.yielded == s.yielded && u.consumer == s.consumer
      && (if sel.SelSend? && !s.chans.closed then
            && u.hist.sent == s.hist.sent + [i] && u.chans.queue == s.chans.queue + [i]
            && u.hist.dropped == s.hist.dropped
          else
            && u.hist.sent == s.hist.sent && u.chans.queue == s.chans.queue
            && u.hist.dropped == s.hist.dropped + 1)
  {
  }

  lemma SendsInOrder(input: Input, s: World, i: nat)
    requires Increasing(s.hist.sent) && AllBelow(s.hist.sent, i) && FlowOk(input, s)
    ensures Increasing(s.hist.sent + [i]) && AllBelow(s.hist.sent + [i], i + 1)
    ensures s.hist.sent + [i] == Indices(s.yielded) + Current(s.consumer) + (s.chans.queue + [i])
  {
    var flow := Indices(s.yielded) + Current(s.consumer);
    assert flow + (s.chans.queue + [i]) == (flow + s.chans.queue) + [i];
  }

  lemma SelectKeepsValues(input: Input, s: World, w: nat, sel: Select)
    requires ValuesOk(input, s) && WorkEnabled(input, s, w, sel) && s.workers[w].Holding?
    ensures ValuesOk(input, WorkStep(input, s, w, sel))
  {
  }

  lemma WorkKeepsOrder(input: Input, s: World, w: nat, sel: Select)
    requires OrderInv(input, s) && WorkEnabled(input, s, w, sel)
    ensures OrderInv(input, WorkStep(input, s, w, sel))
  {
    if s.workers[w].Holding? {
      SelectKeepsOrder(input, s, w, sel);
    } else {
      WorkKeepsWorkers(input, s, w, sel);
      WorkKeepsValues(input, s, w, sel);
      WorkKeepsCounts(input, s, w, sel);
    }
  }

  lemma WorkKeepsCounts(input: Input, s: World, w: nat, sel: Select)
    requires OrderInv(input, s) && WorkEnabled(input, s, w, sel) && !s.workers[w].Holding?
    ensures var u := WorkStep(input, s, w, sel);
      SpawnOk(u) && PullerOk(|input.items|, u.pull) && SentOk(u) && FlowOk(input, u)
  {
    HeldElsewhere(input, s, w, sel);
    WorkLeaves(input, s, w, sel);
    WorkPulls(input, s, w, sel);
  }

  /** Away from its select a worker neither sends nor drops. */
  lemma WorkLeaves(input: Input, s: World, w: nat, sel: Select)
    requires WorkEnabled(input, s, w, sel) && !s.workers[w].Holding?
    ensures Leaves(s, WorkStep(input, s, w, sel), w)
  {
    if Ended(s.workers[w]) { EndLeaves(input, s, w); }
    else { LoopLeaves(input, s, w, sel); }
  }

  ghost predicate Leaves(s: World, u: World, w: nat)
    requires w < |s.workers|
  {
    && |u.workers| == |s.workers|
    && u.hist.sent == s.hist.sent && u.hist.dropped == s.hist.dropped
    && u.yielded == s.yielded && u.consumer == s.consumer && u.chans.queue == s.chans.queue
    && u.workers == s.workers[w := u.workers[w]] && !u.workers[w].NotStarted?
  }

  lemma EndLeaves(input: Input, s: World, w: nat)
    requires w < |s.workers| && Ended(s.workers[w])
    ensures Leaves(s, EndStep(input, s, w), w)
  {
  }

  lemma LoopLeaves(input: Input, s: World, w: nat, sel: Select)
    requires WorkEnabled(input, s, w, sel) && !s.workers[w].Holding? && !Ended(s.workers[w])
    ensures Leaves(s, LoopStep(input, s, w, sel), w)
  {
  }

  lemma WorkPulls(input: Input, s: World, w: nat, sel: Select)
    requires PullerOk(|input.items|, s.pull) && WorkEnabled(input, s, w, sel) && !s.workers[w].Holding?
    ensures var p := WorkStep(input, s, w, sel).pull;
      PullerOk(|input.items|, p) && s.pull.pos <= p.pos
  {
  }

  lemma WorkKeepsWorkers(input: Input, s: World, w: nat, sel: Select)
    requires OrderInv(input, s) && WorkEnabled(input, s, w, sel) && !s.workers[w].Holding?
    ensures WorkersOk(input, WorkStep(input, s, w, sel))
  {
    var u := WorkStep(input, s, w, sel);
    WorkLeaves(input, s, w, sel);
    WorkerSelf(input, s, w, sel);
    forall v | 0 <= v < |u.workers|
      ensures WorkerOk(|input.items|, u.pull, u.hist.sent, v, u.workers[v])
    {
      assert WorkerOk(|input.items|, s.pull, s.hist.sent, v, s.workers[v]);
    }
  }

  /** The worker that steps stays in order, and takes the mutex only when it is free. */
  lemma WorkerSelf(input: Input, s: World, w: nat, sel: Select)
    requires OrderInv(input, s) && WorkEnabled(input, s, w, sel) && !s.workers[w].Holding?
    ensures var u := WorkStep(input, s, w, sel);
      && |u.workers| == |s.workers|
      && WorkerOk(|input.items|, u.pull, s.hist.sent, w, u.workers[w])
      && (u.pull.mutex == s.pull.mutex || s.pull.mutex.None? || s.pull.mutex == Some(w))
      && (u.pull.pos != s.pull.pos ==> s.pull.mutex.None?)
  {
    assert WorkerOk(|input.items|, s.pull, s.hist.sent, w, s.workers[w]);
    if !Ended(s.workers[w]) { LoopSelf(input, s, w, sel); }
  }

  lemma LoopSelf(input: Input, s: World, w: nat, sel: Select)
    requires OrderInv(input, s) && WorkEnabled(input, s, w, sel)
    requires !s.workers[w].Holding? && !Ended(s.workers[w])
    requires WorkerOk(|input.items|, s.pull, s.hist.sent, w, s.workers[w])
    ensures var u := LoopStep(input, s, w, sel);
      && |u.workers| == |s.workers|
      && WorkerOk(|input.items|, u.pull, s.hist.sent, w, u.workers[w])
      && (u.pull.mutex == s.pull.mutex || s.pull.mutex.None? || s.pull.mutex == Some(w))
      && (u.pull.pos != s.pull.pos ==> s.pull.mutex.None?)
  {
  }

  lemma WorkKeepsValues(input: Input, s: World, w: nat, sel: Select)
    requires OrderInv(input, s) && WorkEnabled(input, s, w, sel) && !s.workers[w].Holding?
    ensures ValuesOk(input, WorkStep(input, s, w, sel))
  {
    assert WorkerOk(|input.items|, s.pull, s.hist.sent, w, s.workers[w]);
  }

  lemma HeldElsewhere(input: Input, s: World, w: nat, sel: Select)
    requires OrderInv(input, s) && WorkEnabled(input, s, w, sel) && !s.workers[w].Holding?
    ensures var u := WorkStep(input, s, w, sel);
      Held(u) - Held(s) == u.pull.pos - s.pull.pos
  {
    assert WorkerOk(|input.items|, s.pull, s.hist.sent, w, s.workers[w]);
  }

  lemma ReceiveKeepsFlow(input: Input, s: World)
    requires FlowOk(input, s) && s.consumer.Receiving?
    ensures FlowOk(input, Receive(s))
  {
    var ys, q := Indices(s.yielded), s.chans.queue;
    assert ys + [] + q == ys + q;
    if q != [] {
      assert q == [q[0]] + q[1..];
      assert ys + [q[0]] + q[1..] == ys + q;
    }
  }

  lemma YieldKeepsFlow(input: Input, s: World, ans: Answer)
    requires FlowOk(input, s) && s.consumer.Yielding?
    ensures FlowOk(input, Yield(s, s.consumer.i, s.consumer.r, ans))
  {
    var i := s.consumer.i;
    assert Indices(s.yielded + [(i, s.consumer.r)]) == Indices(s.yielded) + [i];
    assert Indices(s.yielded) + [i] + [] == Indices(s.yielded) + [i];
  }

  lemma ConsumeKeepsFlow(input: Input, s: World, ans: Answer)
    requires FlowOk(input, s) && ConsumeEnabled(s)
    ensures FlowOk(input, ConsumeStep(s, ans))
  {
    if s.consumer.Receiving? {
      ReceiveKeepsFlow(input, s);
    } else if s.consumer.Yielding? {
      YieldKeepsFlow(input, s, ans);
    }
  }

  lemma ConsumeKeepsValues(input: Input, s: World, ans: Answer)
    requires ValuesOk(input, s) && ConsumeEnabled(s)
    ensures ValuesOk(input, ConsumeStep(s, ans))
  {
  }

  lemma SpawnKeepsWorkers(input: Input, s: World, ans: Answer)
    requires OrderInv(input, s) && ConsumeEnabled(s) && s.consumer.Spawning?
    ensures var u := ConsumeStep(s, ans);
      WorkersOk(input, u) && SpawnOk(u) && Held(u) == Held(s)
  {
    var u := ConsumeStep(s, ans);
    forall v | 0 <= v < |u.workers|
      ensures WorkerOk(|input.items|, u.pull, u.hist.sent, v, u.workers[v])
    {
      assert WorkerOk(|input.items|, s.pull, s.hist.sent, v, s.workers[v]);
    }
    if s.consumer.k < |s.workers| {
      assert s.workers[s.consumer.k].NotStarted?;
    }
  }

  lemma ConsumeKeepsOrder(input: Input, s: World, ans: Answer)
    requires OrderInv(input, s) && ConsumeEnabled(s)
    ensures OrderInv(input, ConsumeStep(s, ans))
  {
    ConsumeKeepsFlow(input, s, ans);
    ConsumeKeepsValues(input, s, ans);
    if s.consumer.Spawning? {
      SpawnKeepsWorkers(input, s, ans);
      var u := ConsumeStep(s, ans);
      assert u.pull == s.pull && u.hist.sent == s.hist.sent && u.hist.dropped == s.hist.dropped;
    } else {
      LeaveWorkers(s, ans);
      WorkersStay(input, s, ConsumeStep(s, ans));
    }
  }

  lemma LeaveWorkers(s: World, ans: Answer)
    requires ConsumeEnabled(s) && !s.consumer.Spawning?
    ensures var u := ConsumeStep(s, ans);
      && u.workers == s.workers && u.pull.(closed := s.pull.closed) == s.pull
      && (s.pull.closed ==> u.pull.closed)
      && u.hist.sent == s.hist.sent && u.hist.dropped == s.hist.dropped
      && Spawned(u) == Spawned(s)
  {
  }

  lemma WorkersStay(input: Input, s: World, u: World)
    requires OrderInv(input, s)
    requires u.workers == s.workers && u.pull.(closed := s.pull.closed) == s.pull
    requires s.pull.closed ==> u.pull.closed
    requires u.hist.sent == s.hist.sent && u.hist.dropped == s.hist.dropped && Spawned(u) == Spawned(s)
    ensures WorkersOk(input, u) && PullerOk(|input.items|, u.pull) && SentOk(u) && SpawnOk(u)
  {
    forall v | 0 <= v < |u.workers|
      ensures WorkerOk(|input.items|, u.pull, u.hist.sent, v, u.workers[v])
    {
      assert WorkerOk(|input.items|, s.pull, s.hist.sent, v, s.workers[v]);
    }
  }

  lemma StepKeepsOrder(input: Input, s: World, l: Label)
    requires OrderInv(input, s) && Enabled(input, s, l)
    ensures OrderInv(input, Step(input, s, l))
  {
    match l
    case Work(w, sel) => WorkKeepsOrder(input, s, w, sel);
    case Consume(ans) => ConsumeKeepsOrder(input, s, ans);
    case _ => IdleKeepsOrder(input, s, Step(input, s, l));
  }

  lemma IdleKeepsOrder(input: Input, s: World, u: World)
    requires OrderInv(input, s)
    requires u.pull == s.pull && u.workers == s.workers && u.consumer == s.consumer && u.yielded == s.yielded
    requires u.chans.queue == s.chans.queue && u.chans.slots == s.chans.slots
    requires u.hist.sent == s.hist.sent && u.hist.dropped == s.hist.dropped
    ensures OrderInv(input, u)
  {
  }

  lemma {:induction false} RunKeepsOrder(input: Input, s: World, ls: seq<Label>, u: World)
    requires OrderInv(input, s) && IsRun(input, s, ls, u)
    ensures OrderInv(input, u)
    decreases |ls|
  {
    if ls != [] {
      StepKeepsOrder(input, s, ls[0]);
      RunKeepsOrder(input, Step(input, s, ls[0]), ls[1..], u);
    }
  }

  lemma ReachableOrder(input: Input, s: World)
    requires Reachable(input, s)
    ensures OrderInv(input, s)
  {
    var ls :| IsRun(input, Init(input.workers), ls, s);
    InitOrder(input);
    RunKeepsOrder(input, Init(input.workers), ls, s);
  }

  /** Under every schedule, whatever is cancelled, broken off or expired, the yielded
      indices are strictly increasing and each comes with its own item's result.
      (Not every index is yielded: a cancelled send drops its item.) */
  lemma YieldedInOrder(input: Input, s: World)
    requires Reachable(input, s)
    ensures forall j, k :: 0 <= j < k < |s.yielded| ==> s.yielded[j].0 < s.yielded[k].0
    ensures forall k :: 0 <= k < |s.yielded| ==>
      && s.yielded[k].0 < |input.items|
      && s.yielded[k].1 == input.fn(s.yielded[k].0, input.items[s.yielded[k].0])
  {
    ReachableOrder(input, s);
    forall j, k | 0 <= j < k < |s.yielded| ensures s.yielded[j].0 < s.yielded[k].0 {
      assert s.hist.sent[j] == s.yielded[j].0 && s.hist.sent[k] == s.yielded[k].0;
    }
    assert forall k :: 0 <= k < |s.yielded| ==> Correct(input, s.yielded[k].0, s.yielded[k].1);
  }

  /** How many workers are inside the callback. */
  function Calls(workers: seq<Worker>): nat {
    if workers == [] then 0
    else Calls(workers[..|workers| - 1]) + (if workers[|workers| - 1].Calling? then 1 else 0)
  }

  lemma {:induction false} CallsBounded(workers: seq<Worker>)
    ensures Calls(workers) <= |workers|
  {
    if workers != [] { CallsBounded(workers[..|workers| - 1]); }
  }

  /** At every moment at most numWorkers + 2 items have been pulled and are neither
      yielded nor dropped, and at most numWorkers callbacks run. */
  lemma BoundedBuffering(input: Input, s: World)
    requires Reachable(input, s)
    ensures s.pull.pos - |s.yielded| - s.hist.dropped <= input.workers + 2
    ensures Calls(s.workers) <= input.workers
  {
    ReachableOrder(input, s);
    CallsBounded(s.workers);
  }
}
