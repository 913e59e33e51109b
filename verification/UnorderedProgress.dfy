/**
  The unordered operators get stuck in two ways only: by an input that panics under the
  mutex, and by a loop body that unwinds and leaves workers with results that nobody
  reads.  And every run of them ends.
 */
module UnorderedProgress {
  import opened SeqStopper
  import opened Unordered
  import opened UnorderedPlaces
  import opened UnorderedLife

  /** A step that some worker, the consumer or the stopper can take. */
  ghost predicate CanMove(input: Input, s: World) {
    exists l :: Internal(l) && Enabled(input, s, l)
  }

  /** After a loop body has unwound, results that do not fit into the channel wait for an
      expired grace period or a cancelled context. */
  ghost predicate Abandoned(input: Input, s: World) {
    && s.hist.threw && !s.out.earlyBreak && !s.out.closed && !s.nested.ctxDone && s.nested.phase.Armed?
    && |s.out.queue| >= input.workers
    && exists w :: 0 <= w < |s.workers| && s.workers[w].Sending?
  }

  /** A worker that cannot move waits for the jammed mutex or at its select. */
  lemma WorkerMoves(input: Input, s: World, w: nat)
    requires Inv(input, s) && w < |s.workers| && Active(s.workers[w])
    ensures CanMove(input, s)
      || (s.workers[w].Pulling? && s.pull.jammed)
      || (s.workers[w].Sending? && !input.collects && |s.out.queue| >= input.workers
          && !s.out.earlyBreak && !s.out.closed && !s.nested.ctxDone)
  {
    assert WorkerOk(input, s.workers[w]);
    var sel := if s.out.earlyBreak then SelBreak else if s.nested.ctxDone then SelDone else SelSend;
    if !(s.workers[w].Pulling? && s.pull.jammed) && (s.workers[w].Sending? ==> SelectReady(input, s, sel)) {
      assert Enabled(input, s, Work(w, sel)) && Internal(Work(w, sel));
    }
  }

  lemma StopperMoves(input: Input, s: World)
    requires s.nested.phase.Firing? || s.nested.phase.Closing?
    ensures CanMove(input, s)
  {
    assert Enabled(input, s, Finish) && Internal(Finish);
  }

  lemma ConsumerMoves(input: Input, s: World)
    requires ConsumeEnabled(input, s)
    ensures CanMove(input, s)
  {
    assert Enabled(input, s, Consume(More)) && Internal(Consume(More));
  }

  lemma ReceivingMoves(input: Input, s: World)
    requires Inv(input, s) && !s.pull.jammed && s.consumer.Receiving?
    ensures CanMove(input, s)
  {
    if s.out.queue != [] || s.out.closed {
      ConsumerMoves(input, s);
    } else if Live(s.workers) > 0 {
      var w := LiveWitness(s.workers);
      WorkerMoves(input, s, w);
    } else {
      StopperMoves(input, s);
    }
  }

  lemma EndingMoves(input: Input, s: World)
    requires Inv(input, s) && !s.pull.jammed && !Abandoned(input, s) && !Final(s)
    requires s.consumer.WaitDone? || s.consumer.Finished?
    ensures CanMove(input, s)
  {
    if s.nested.phase.Firing? || s.nested.phase.Closing? {
      StopperMoves(input, s);
    } else if Live(s.workers) > 0 {
      var w := LiveWitness(s.workers);
      WorkerMoves(input, s, w);
    } else {
      ConsumerMoves(input, s);
    }
  }

  /** Unless the mutex is jammed or a worker is abandoned, either everything is finished or
      some worker, the consumer or the stopper can take a step. */
  lemma NeverStuck(input: Input, s: World)
    requires Inv(input, s) && !s.pull.jammed && !Abandoned(input, s) && !Final(s)
    ensures CanMove(input, s)
  {
    match s.consumer
    case Receiving => ReceivingMoves(input, s);
    case WaitDone => EndingMoves(input, s);
    case Finished => EndingMoves(input, s);
    case _ => ConsumerMoves(input, s);
  }

  /** The exact condition: a state in which nobody can move is the end of the operator if
      and only if the mutex is not jammed and no worker is abandoned. */
  lemma StuckIff(input: Input, s: World)
    requires Reachable(input, s) && !CanMove(input, s)
    ensures Final(s) <==> !s.pull.jammed && !Abandoned(input, s)
  {
    ReachableInv(input, s);
    if !s.pull.jammed && !Abandoned(input, s) && !Final(s) { NeverStuck(input, s); }
    if w :| Abandoned(input, s) && 0 <= w < |s.workers| && s.workers[w].Sending? { LiveMember(s.workers, w); }
  }

  /** Whether the operator returns to its caller.  A state in which nobody can move has the
      operator back at its caller unless the mutex is jammed, and only an input that panics
      jams it: neither an expired grace period nor an unwinding loop body keeps the caller
      from its cleanup. */
  lemma ReturnsIff(input: Input, s: World)
    requires Reachable(input, s) && !CanMove(input, s)
    ensures s.consumer.Finished? <==> !s.pull.jammed
    ensures s.pull.jammed ==> input.panics && s.pull.pos == |input.items|
  {
    ReachableInv(input, s);
    if !s.pull.jammed {
      if s.consumer.Receiving? { ReceivingMoves(input, s); }
      if s.consumer.WaitDone? { EndingMoves(input, s); }
      if ConsumeEnabled(input, s) { ConsumerMoves(input, s); }
    }
  }

  lemma StepKeepsJam(input: Input, s: World, l: Label)
    requires Inv(input, s) && Enabled(input, s, l) && s.pull.jammed
    ensures Step(input, s, l).pull.jammed
  {
    match l
    case Work(w, sel) => WorkReasons(input, s, w, sel);
    case Consume(ans) => ConsumeWorkers(input, s, ans);
    case _ =>
  }

  /** With a jammed mutex no continuation ever returns to the caller, whatever the
      environment does. */
  lemma {:induction false} JamIsForever(input: Input, s: World, ls: seq<Label>, u: World)
    requires Inv(input, s) && IsRun(input, s, ls, u) && s.pull.jammed
    ensures u.pull.jammed && !u.consumer.Finished? && !Final(u)
    decreases |ls|
  {
    if ls != [] {
      StepKeepsInv(input, s, ls[0]);
      StepKeepsJam(input, s, ls[0]);
      JamIsForever(input, Step(input, s, ls[0]), ls[1..], u);
    }
  }

  lemma JamEnds(input: Input, s: World)
    requires Inv(input, s) && !CanMove(input, s) && !Disturbed(s) && s.pull.jammed
    ensures AllOut(input, s) && s.out.queue == [] && Current(s.consumer) == []
  {
    if ConsumeEnabled(input, s) { ConsumerMoves(input, s); }
    forall w | 0 <= w < |s.workers| ensures !s.workers[w].Calling? && !s.workers[w].Sending? {
      if s.workers[w].Calling? || s.workers[w].Sending? { WorkerMoves(input, s, w); }
    }
  }

  /** The exact condition on the input.  In a run without a cancellation, a break or a panic
      of the loop body and an expired grace period, in which some worker was started: when
      nobody can move any more, all results have been yielded or their failures recorded,
      each index exactly once; and the operator has finished if and only if the input does
      not end in a panic. */
  lemma UndisturbedEndsIff(input: Input, s: World)
    requires Reachable(input, s) && !CanMove(input, s) && !Disturbed(s) && SomeStarted(s)
    ensures Complete(input, s)
    ensures Final(s) <==> !input.panics
  {
    StuckIff(input, s);
    ReachableInv(input, s);
    if s.pull.jammed { JamEnds(input, s); } else { WaitedEnds(input, s); }
    OutMeansComplete(input, s);
  }

  // No infinite run.

  function WorkerCost(x: Worker): nat {
    match x
    case NotStarted => 6
    case Top => 5
    case Pulling => 4
    case Calling(_, _) => 11
    case Sending(_, _) => 10
    case Failed(_) => 3
    case Halting => 2
    case Leaving => 1
    case _ => 0
  }

  function WorkersCost(workers: seq<Worker>): nat {
    if workers == [] then 0
    else WorkersCost(workers[..|workers| - 1]) + WorkerCost(workers[|workers| - 1])
  }

  function ConsumerCost(n: nat, c: Consumer): nat {
    match c
    case Setup => 8 + n
    case Spawning(k) => if k < n then 7 + (n - k) else 7
    case CallIdle => 6
    case Receiving => 5
    case Yielding(_) => 6
    case WaitDone => 4
    case Breaking => 3
    case Stopping => 2
    case Unpull => 1
    case Finished => 0
  }

  function PhaseCost(p: Phase): nat {
    match p case Armed => 3 case Firing => 2 case Closing => 1 case Over => 0
  }

  function ItemsCost(input: Input, p: Puller): nat {
    8 * (if p.pos < |input.items| then |input.items| - p.pos else 0)
  }

  function Measure(input: Input, s: World): nat {
    ItemsCost(input, s.pull) + WorkersCost(s.workers) + 2 * |s.out.queue|
    + ConsumerCost(|s.workers|, s.consumer) + PhaseCost(s.nested.phase)
  }

  lemma {:induction false} WorkersCostUpdate(workers: seq<Worker>, w: nat, x: Worker)
    requires w < |workers|
    ensures WorkersCost(workers[w := x]) == WorkersCost(workers) - WorkerCost(workers[w]) + WorkerCost(x)
  {
    var last := |workers| - 1;
    if w == last {
      assert workers[w := x][..last] == workers[..last];
    } else {
      assert workers[w := x][..last] == workers[..last][w := x];
      WorkersCostUpdate(workers[..last], w, x);
    }
  }

  lemma SelfCost(input: Input, s: World, w: nat, sel: Select)
    requires WorkEnabled(input, s, w, sel)
    ensures var u := WorkStep(input, s, w, sel);
      && |u.workers| == |s.workers|
      && WorkerCost(u.workers[w]) + ItemsCost(input, u.pull) + 2 * |u.out.queue|
         < WorkerCost(s.workers[w]) + ItemsCost(input, s.pull) + 2 * |s.out.queue|
  {
  }

  lemma WorkCosts(input: Input, s: World, w: nat, sel: Select)
    requires WorkEnabled(input, s, w, sel)
    ensures Measure(input, WorkStep(input, s, w, sel)) < Measure(input, s)
  {
    WorkFrame(input, s, w, sel);
    WorkStops(input, s, w, sel);
    SelfCost(input, s, w, sel);
    WorkersCostUpdate(s.workers, w, WorkStep(input, s, w, sel).workers[w]);
  }

  lemma ConsumeCosts(input: Input, s: World, ans: Answer)
    requires SpawnOk(s) && ConsumeEnabled(input, s)
    ensures Measure(input, ConsumeStep(input, s, ans)) < Measure(input, s)
  {
    ConsumeWorkers(input, s, ans);
    if s.consumer.Spawning? && s.consumer.k < |s.workers| {
      assert s.workers[s.consumer.k].NotStarted?;
      WorkersCostUpdate(s.workers, s.consumer.k, ConsumeStep(input, s, ans).workers[s.consumer.k]);
    }
  }

  lemma StepCosts(input: Input, s: World, l: Label)
    requires SpawnOk(s) && Enabled(input, s, l)
    ensures Measure(input, Step(input, s, l)) + (if Internal(l) then 1 else 0) <= Measure(input, s)
  {
    match l
    case Work(w, sel) => WorkCosts(input, s, w, sel);
    case Consume(ans) => ConsumeCosts(input, s, ans);
    case _ =>
  }

  function InternalSteps(ls: seq<Label>): nat {
    if ls == [] then 0 else (if Internal(ls[0]) then 1 else 0) + InternalSteps(ls[1..])
  }

  /** However the environment interferes, a run takes at most as many steps of its own as
      the measure of the state it starts from. */
  lemma {:induction false} EveryRunEnds(input: Input, s: World, ls: seq<Label>, u: World)
    requires BaseInv(input, s) && IsRun(input, s, ls, u)
    ensures InternalSteps(ls) + Measure(input, u) <= Measure(input, s)
    decreases |ls|
  {
    if ls != [] {
      StepCosts(input, s, ls[0]);
      StepKeepsBase(input, s, ls[0]);
      EveryRunEnds(input, Step(input, s, ls[0]), ls[1..], u);
    }
  }
}
