/**
  Every run of ordered Map ends, and the whole operator under any scheduler.
 */
module OrderedMapIterate {
  import opened Options
  import opened SeqStopper
  import opened OrderedMap
  import opened OrderedMapOrder
  import opened OrderedMapLife
  import opened OrderedMapExtra
  import opened OrderedMapProgress

  function WorkerCost(x: Worker): nat {
    match x
    case NotStarted => 6
    case Top => 5
    case Locking => 4
    case Holding(_, _) => 13
    case Release(_, _, ok) => if ok then 8 else 2
    case Empty => 2
    case Calling(_, _) => 7
    case Sending(_, _) => 6
    case Failed(_) => 3
    case Halting => 2
    case Leaving => 1
    case _ => 0
  }

  function WorkersCost(workers: seq<Worker>): nat {
    if workers == [] then 0
    else WorkersCost(workers[..|workers| - 1]) + WorkerCost(workers[|workers| - 1])
  }

  function ConsumerCost(n: nat, c: Consumer): nat {
    match c
    case Setup => 8 + n
    case Spawning(k) => if k < n then 7 + (n - k) else 7
    case CallIdle => 6
    case Receiving => 5
    case Waiting(_) => 8
    case Yielding(_, _) => 7
    case WaitDone => 4
    case Breaking => 3
    case Stopping => 2
    case Unpull => 1
    case Finished => 0
  }

  function PhaseCost(p: Phase): nat {
    match p case Armed => 3 case Firing => 2 case Closing => 1 case Over => 0
  }

  function Measure(input: Input, s: World): nat {
    ItemsCost(input, s.pull)
    + WorkersCost(s.workers) + 4 * |s.chans.queue|
    + ConsumerCost(|s.workers|, s.consumer) + PhaseCost(s.nested.phase)
  }

  lemma {:induction false} WorkersCostUpdate(workers: seq<Worker>, w: nat, x: Worker)
    requires w < |workers|
    ensures WorkersCost(workers[w := x]) == WorkersCost(workers) - WorkerCost(workers[w]) + WorkerCost(x)
  {
    var last := |workers| - 1;
    if w == last {
      assert workers[w := x][..last] == workers[..last];
    } else {
      assert workers[w := x][..last] == workers[..last][w := x];
      WorkersCostUpdate(workers[..last], w, x);
    }
  }

  /** What a worker's step costs: its own state, the item it pulls, the place it takes in
      the queue, and the phase of the stopper. */
  lemma WorkCosts(input: Input, s: World, w: nat, sel: Select)
    requires WorkEnabled(input, s, w, sel)
    ensures Measure(input, WorkStep(input, s, w, sel)) < Measure(input, s)
  {
    var u := WorkStep(input, s, w, sel);
    WorkFrame(input, s, w, sel);
    WorkStops(input, s, w, sel);
    WorkersCostUpdate(s.workers, w, u.workers[w]);
    if s.workers[w].Holding? {
      SelectCost(input, s, w, sel);
    } else {
      WorkLeaves(input, s, w, sel);
      if Ended(s.workers[w]) { EndCost(input, s, w); } else { LoopCost(input, s, w, sel); }
    }
  }

  function ItemsCost(input: Input, p: Puller): nat {
    10 * (if p.pos < |input.items| then |input.items| - p.pos else 0)
  }

  lemma SelectCost(input: Input, s: World, w: nat, sel: Select)
    requires WorkEnabled(input, s, w, sel) && s.workers[w].Holding?
    ensures var u := WorkStep(input, s, w, sel);
      && |u.workers| == |s.workers| && u.pull == s.pull
      && WorkerCost(u.workers[w]) + 4 * |u.chans.queue| < WorkerCost(s.workers[w]) + 4 * |s.chans.queue|
  {
  }

  lemma EndCost(input: Input, s: World, w: nat)
    requires w < |s.workers| && Ended(s.workers[w])
    ensures var u := EndStep(input, s, w);
      && |u.workers| == |s.workers| && u.pull == s.pull
      && WorkerCost(u.workers[w]) < WorkerCost(s.workers[w])
  {
  }

  lemma LoopCost(input: Input, s: World, w: nat, sel: Select)
    requires WorkEnabled(input, s, w, sel) && !s.workers[w].Holding? && !Ended(s.workers[w])
    ensures var u := LoopStep(input, s, w, sel);
      && |u.workers| == |s.workers|
      && WorkerCost(u.workers[w]) + ItemsCost(input, u.pull) < WorkerCost(s.workers[w]) + ItemsCost(input, s.pull)
  {
  }

  lemma SpawnCosts(input: Input, s: World, ans: Answer)
    requires OrderInv(input, s) && ConsumeEnabled(s) && s.consumer.Spawning?
    ensures Measure(input, ConsumeStep(s, ans)) < Measure(input, s)
  {
    var k := s.consumer.k;
    if k < |s.workers| {
      assert s.workers[k].NotStarted?;
      WorkersCostUpdate(s.workers, k, Spawn(s, k).workers[k]);
    }
  }

  lemma ConsumeCosts(input: Input, s: World, ans: Answer)
    requires OrderInv(input, s) && ConsumeEnabled(s)
    ensures Measure(input, ConsumeStep(s, ans)) < Measure(input, s)
  {
    if s.consumer.Spawning? { SpawnCosts(input, s, ans); }
    else { LoopCosts(input, s, ans); }
  }

  lemma LoopCosts(input: Input, s: World, ans: Answer)
    requires ConsumeEnabled(s) && !s.consumer.Spawning?
    ensures Measure(input, ConsumeStep(s, ans)) < Measure(input, s)
  {
    var u := ConsumeStep(s, ans);
    assert u.workers == s.workers && u.pull.pos == s.pull.pos;
  }

  lemma StepCosts(input: Input, s: World, l: Label)
    requires OrderInv(input, s) && Enabled(input, s, l)
    ensures Measure(input, Step(input, s, l)) + (if Internal(l) then 1 else 0) <= Measure(input, s)
  {
    match l
    case Work(w, sel) => WorkCosts(input, s, w, sel);
    case Consume(ans) => ConsumeCosts(input, s, ans);
    case _ =>
  }

  function InternalSteps(ls: seq<Label>): nat {
    if ls == [] then 0 else (if Internal(ls[0]) then 1 else 0) + InternalSteps(ls[1..])
  }

  /** However the environment interferes, a run takes at most as many steps of its own
      as the measure of the state it starts from. */
  lemma {:induction false} EveryRunEnds(input: Input, s: World, ls: seq<Label>, u: World)
    requires OrderInv(input, s) && IsRun(input, s, ls, u)
    ensures InternalSteps(ls) + Measure(input, u) <= Measure(input, s)
    decreases |ls|
  {
    if ls != [] {
      StepCosts(input, s, ls[0]);
      StepKeepsOrder(input, s, ls[0]);
      EveryRunEnds(input, Step(input, s, ls[0]), ls[1..], u);
    }
  }

  /** The whole of Map under a scheduler that picks any possible step each time, until there
      is none.  Unless the caller's loop breaks off or unwinds, the whole sequential map of
      the input has then been yielded, whatever the scheduler does; the operator has
      finished if and only if the input does not panic at its end, and without such a panic
      nothing follows the results. */
  method Iterate(input: Input, pick: World -> Option<Label>) returns (s: World)
    requires input.workers >= 1
    requires forall w :: ProgressInv(input, w) && !w.hist.expired ==>
      if pick(w).None? then !CanMove(input, w)
      else Internal(pick(w).value) && Enabled(input, w, pick(w).value)
    ensures !CanMove(input, s)
    ensures !s.hist.broke && !s.hist.threw ==>
      && s.yielded == AllResults(input)
      && (Final(s) <==> !input.panics)
      && (Final(s) ==> s.extra == None)
    ensures !s.hist.threw && !input.panics ==> Final(s)
  {
    s := Init(input.workers);
    InitProgress(input);
    InitExtra(input);
    var next := pick(s);
    while next.Some?
      invariant ProgressInv(input, s) && ExtraInv(input, s) && FailedNoted(s)
      invariant Calm(input, s)
      invariant next == pick(s)
      decreases Measure(input, s)
    {
      StepKeepsProgress(input, s, next.value);
      StepKeepsExtra(input, s, next.value);
      StepCosts(input, s, next.value);
      StepIsCalm(input, s, next.value);
      s := Step(input, s, next.value);
      next := pick(s);
    }
    IterateEnds(input, s);
  }

  lemma IterateEnds(input: Input, s: World)
    requires input.workers >= 1 && !CanMove(input, s)
    requires ProgressInv(input, s) && ExtraInv(input, s) && Calm(input, s)
    ensures !s.hist.broke && !s.hist.threw ==>
      && s.yielded == AllResults(input)
      && (Final(s) <==> !input.panics)
      && (Final(s) ==> s.extra == None)
    ensures !s.hist.threw && !input.panics ==> Final(s)
  {
    if !Jammed(s) && !Abandoned(input, s) && !Final(s) { NeverStuck(input, s); }
    if !s.hist.broke && !s.hist.threw {
      if s.consumer.Setup? || s.consumer.Spawning? { ConsumerMoves(input, s); }
      assert !s.workers[0].NotStarted? && !s.workers[0].Refused?;
      UndisturbedStop(input, s);
    }
  }

  /** Nobody outside has interfered: the first worker was not refused, and none was unless
      the input panicked while workers were being started. */
  ghost predicate Calm(input: Input, s: World) {
    && !s.hist.expired && !s.hist.cancelled && !s.hist.added && !s.nested.parentStopping
    && (s.consumer.Setup? || s.consumer == Spawning(0) ==> !s.nested.stopping)
    && (|s.workers| > 0 ==> !s.workers[0].Refused?)
    && (!input.panics ==>
          !s.hist.refused && (s.consumer.Setup? || s.consumer.Spawning? ==> !s.nested.stopping))
  }

  lemma StepIsCalm(input: Input, s: World, l: Label)
    requires ProgressInv(input, s) && FailedNoted(s) && Enabled(input, s, l) && Internal(l) && Calm(input, s)
    ensures Calm(input, Step(input, s, l))
  {
    match l
    case Work(w, sel) => WorkIsCalm(input, s, w, sel);
    case Consume(ans) => ConsumeIsCalm(input, s, ans);
    case Finish =>
  }

  lemma WorkIsCalm(input: Input, s: World, w: nat, sel: Select)
    requires ProgressInv(input, s) && FailedNoted(s) && WorkEnabled(input, s, w, sel) && Calm(input, s)
    ensures Calm(input, WorkStep(input, s, w, sel))
  {
    WorkFrame(input, s, w, sel);
    WorkStops(input, s, w, sel);
    assert s.workers[w].NotStarted? <==> w >= Spawned(s);
    LiveMember(s.workers, w);
  }

  lemma ConsumeIsCalm(input: Input, s: World, ans: Answer)
    requires ProgressInv(input, s) && ConsumeEnabled(s) && Calm(input, s)
    ensures Calm(input, ConsumeStep(s, ans))
  {
    if !s.consumer.Spawning? { LeaveWorkers(s, ans); ConsumeHistory(s, ans); }
  }
}
