/**
  Ordered Map gets stuck in two ways only.  A worker's panic between lock and unlock, on
  sending to the closed results channel or in the input iterator, jams the mutex; and a
  loop body that unwinds abandons a worker at its select.
 */
module OrderedMapProgress {
  import opened Options
  import opened SeqStopper
  import opened OrderedMap
  import opened OrderedMapOrder
  import opened OrderedMapLife

  /** The worker will put the result of item i into its channel. */
  predicate Delivers(x: Worker, i: nat) {
    ((x.Release? && x.ok) || x.Calling? || x.Sending?) && x.i == i
  }

  ghost predicate Served(s: World, i: nat) {
    i in s.chans.slots || exists w :: 0 <= w < |s.workers| && Delivers(s.workers[w], i)
  }

  /** Whatever the consumer waits for, or will take next, is there or under way. */
  ghost predicate ServedOk(s: World) {
    && (forall i :: i in s.chans.queue ==> Served(s, i))
    && (s.consumer.Waiting? ==> Served(s, s.consumer.i))
  }

  /** The mutex is locked by a worker that will never unlock it. */
  predicate Jammed(s: World) {
    s.pull.mutex.Some? &&
    (s.pull.mutex.value >= |s.workers| || !InMutex(s.workers[s.pull.mutex.value]))
  }

  /** A worker waits in its select, with the mutex, for what nobody is going to do: the loop
      body has unwound, so the queue is not read any more and no early break is signalled. */
  predicate Abandoned(input: Input, s: World) {
    && s.hist.threw && s.pull.mutex.Some? && s.pull.mutex.value < |s.workers|
    && s.workers[s.pull.mutex.value].Holding?
    && |s.chans.queue| >= input.workers && !s.chans.earlyBreak
    && !s.chans.closed && !s.nested.ctxDone && s.nested.phase.Armed?
  }

  /** The causes of a jam: an expired grace period, or the input's panic at its end.  A
      closed puller is past both. */
  ghost predicate JamOk(input: Input, s: World) {
    && (Jammed(s) ==> !s.pull.closed && (s.hist.expired || (input.panics && s.pull.pos == |input.items|)))
    && (s.pull.closed ==> Held(s) == 0)
    && (!Disturbed(s) && s.hist.failed ==> Jammed(s))
  }

  ghost predicate ProgressInv(input: Input, s: World) {
    Inv(input, s) && ServedOk(s) && JamOk(input, s)
  }

  lemma WorkServes(input: Input, s: World, w: nat, sel: Select, i: nat)
    requires WorkEnabled(input, s, w, sel)
    requires Served(s, i) || (i in WorkStep(input, s, w, sel).chans.queue && i !in s.chans.queue)
    ensures Served(WorkStep(input, s, w, sel), i)
  {
    var u := WorkStep(input, s, w, sel);
    WorkFrame(input, s, w, sel);
    WorkDelivers(input, s, w, sel, i);
    if Served(s, i) {
      if i !in s.chans.slots {
        var v :| 0 <= v < |s.workers| && Delivers(s.workers[v], i);
        if v != w { assert Delivers(u.workers[v], i); }
      }
    } else {
      assert Delivers(u.workers[w], i);
    }
  }

  lemma WorkDelivers(input: Input, s: World, w: nat, sel: Select, i: nat)
    requires WorkEnabled(input, s, w, sel)
    ensures var u := WorkStep(input, s, w, sel);
      && |u.workers| == |s.workers|
      && (i in s.chans.slots ==> i in u.chans.slots)
      && (Delivers(s.workers[w], i) ==> i in u.chans.slots || Delivers(u.workers[w], i))
      && (i in u.chans.queue && i !in s.chans.queue ==> Delivers(u.workers[w], i))
  {
  }

  lemma WorkKeepsServed(input: Input, s: World, w: nat, sel: Select)
    requires ProgressInv(input, s) && WorkEnabled(input, s, w, sel)
    ensures ServedOk(WorkStep(input, s, w, sel))
  {
    var u := WorkStep(input, s, w, sel);
    WorkStops(input, s, w, sel);
    forall i | i in u.chans.queue ensures Served(u, i) { WorkServes(input, s, w, sel, i); }
    if s.consumer.Waiting? { WorkServes(input, s, w, sel, s.consumer.i); }
  }

  /** The step of a worker that panics with the mutex locked. */
  predicate PanicsLocked(input: Input, s: World, w: nat, sel: Select)
    requires w < |s.workers|
  {
    || (s.workers[w].Holding? && sel.SelSend? && s.chans.closed)
    || (s.workers[w].Locking? && PullPanics(input, s.pull))
  }

  /** A worker jams the mutex exactly by sending on the closed channel or by pulling from an
      input that panics; the former takes an expired grace period. */
  lemma WorkJams(input: Input, s: World, w: nat, sel: Select)
    requires Inv(input, s) && WorkEnabled(input, s, w, sel)
    ensures Jammed(WorkStep(input, s, w, sel)) <==> Jammed(s) || PanicsLocked(input, s, w, sel)
    ensures s.chans.closed ==> s.hist.expired
  {
    LiveMember(s.workers, w);
    WorkFrame(input, s, w, sel);
    WorkMutex(input, s, w, sel);
  }

  /** What a worker does to the mutex. */
  lemma WorkMutex(input: Input, s: World, w: nat, sel: Select)
    requires Inv(input, s) && WorkEnabled(input, s, w, sel)
    ensures var u, x := WorkStep(input, s, w, sel), s.workers[w];
      && |u.workers| == |s.workers|
      && (if InMutex(x) || x.Locking? then
            if PanicsLocked(input, s, w, sel) then u.pull.mutex == Some(w) && !InMutex(u.workers[w])
            else u.pull.mutex == None || (u.pull.mutex == Some(w) && InMutex(u.workers[w]))
          else u.pull.mutex == s.pull.mutex && !InMutex(u.workers[w]))
      && (InMutex(x) ==> s.pull.mutex == Some(w)) && (x.Locking? ==> s.pull.mutex == None)
  {
    assert WorkerOk(|input.items|, s.pull, s.hist.sent, w, s.workers[w]);
  }

  lemma WorkKeepsJam(input: Input, s: World, w: nat, sel: Select)
    requires ProgressInv(input, s) && WorkEnabled(input, s, w, sel)
    ensures JamOk(input, WorkStep(input, s, w, sel))
  {
    WorkJams(input, s, w, sel);
    WorkFrame(input, s, w, sel);
    WorkQueue(input, s, w, sel);
    if s.pull.closed { WorkHolds(input, s, w, sel); }
    ActiveMeansDisturbed(s, w);
    WorkPosition(input, s, w, sel);
  }

  lemma WorkPosition(input: Input, s: World, w: nat, sel: Select)
    requires OrderInv(input, s) && WorkEnabled(input, s, w, sel)
    ensures var u := WorkStep(input, s, w, sel);
      && (s.pull.pos == |input.items| ==> u.pull.pos == |input.items|)
      && (u.hist.failed && !s.hist.failed ==> PanicsLocked(input, s, w, sel) || s.nested.ctxDone)
  {
  }

  /** A stopped puller gives nobody an item to hold. */
  lemma WorkHolds(input: Input, s: World, w: nat, sel: Select)
    requires Inv(input, s) && WorkEnabled(input, s, w, sel) && s.pull.closed && Held(s) == 0
    ensures Held(WorkStep(input, s, w, sel)) == 0
  {
    if s.workers[w].Holding? {
      assert WorkerOk(|input.items|, s.pull, s.hist.sent, w, s.workers[w]);
    } else {
      HeldElsewhere(input, s, w, sel);
      ClosedPull(input, s, w, sel);
    }
  }

  lemma ClosedPull(input: Input, s: World, w: nat, sel: Select)
    requires WorkEnabled(input, s, w, sel) && s.pull.closed && !s.workers[w].Holding?
    ensures WorkStep(input, s, w, sel).pull.pos == s.pull.pos
  {
  }

  lemma ServedGrows(s: World, u: World, i: nat)
    requires Served(s, i) && u.chans.slots == s.chans.slots && |u.workers| == |s.workers|
    requires forall w :: 0 <= w < |s.workers| && !s.workers[w].NotStarted? ==> u.workers[w] == s.workers[w]
    ensures Served(u, i)
  {
    if i !in s.chans.slots {
      var w :| 0 <= w < |s.workers| && Delivers(s.workers[w], i);
      assert Delivers(u.workers[w], i);
    }
  }

  /** What the steps of the consumer and the environment leave alone. */
  ghost predicate Framed(s: World, u: World) {
    && u.chans.slots == s.chans.slots && |u.workers| == |s.workers|
    && u.pull.mutex == s.pull.mutex && u.pull.pos == s.pull.pos
    && (u.pull.closed ==> s.pull.closed || (s.consumer.Unpull? && s.pull.mutex.None?))
    && (s.hist.expired ==> u.hist.expired) && u.hist.failed == s.hist.failed
    && (Disturbed(s) ==> Disturbed(u))
    && (forall i :: i in u.chans.queue ==> i in s.chans.queue)
    && (u.consumer.Waiting? ==> u.consumer == s.consumer || u.consumer.i in s.chans.queue)
    && (forall w :: 0 <= w < |s.workers| && !s.workers[w].NotStarted? ==> u.workers[w] == s.workers[w])
    && (forall w :: 0 <= w < |s.workers| && s.workers[w].NotStarted? ==>
          !InMutex(u.workers[w]) && !u.workers[w].Holding?)
  }

  lemma ConsumeFrame(s: World, ans: Answer)
    requires SpawnOk(s) && ConsumeEnabled(s)
    ensures Framed(s, ConsumeStep(s, ans))
  {
    if s.consumer.Spawning? {
      if s.consumer.k < |s.workers| { assert s.workers[s.consumer.k].NotStarted?; }
    } else {
      LeaveWorkers(s, ans);
      ConsumeHistory(s, ans);
    }
  }

  lemma OtherFrame(input: Input, s: World, l: Label)
    requires ProgressInv(input, s) && Enabled(input, s, l) && !l.Work?
    ensures Framed(s, Step(input, s, l))
  {
    if l.Consume? { ConsumeFrame(s, l.ans); }
  }

  lemma FramedJam(input: Input, s: World, u: World)
    requires WorkersOk(input, s) && Framed(s, u)
    ensures Jammed(u) == Jammed(s) && Held(u) == Held(s)
  {
    var m := s.pull.mutex;
    if m.Some? && m.value < |s.workers| {
      assert WorkerOk(|input.items|, s.pull, s.hist.sent, m.value, s.workers[m.value]);
    }
  }

  lemma StepKeepsProgress(input: Input, s: World, l: Label)
    requires ProgressInv(input, s) && Enabled(input, s, l)
    ensures ProgressInv(input, Step(input, s, l))
  {
    StepKeepsInv(input, s, l);
    if l.Work? {
      WorkKeepsServed(input, s, l.w, l.sel);
      WorkKeepsJam(input, s, l.w, l.sel);
    } else {
      OtherFrame(input, s, l);
      var u := Step(input, s, l);
      FramedJam(input, s, u);
      forall i | Served(s, i) ensures Served(u, i) { ServedGrows(s, u, i); }
    }
  }

  lemma {:induction false} RunKeepsProgress(input: Input, s: World, ls: seq<Label>, u: World)
    requires ProgressInv(input, s) && IsRun(input, s, ls, u)
    ensures ProgressInv(input, u)
    decreases |ls|
  {
    if ls != [] {
      StepKeepsProgress(input, s, ls[0]);
      RunKeepsProgress(input, Step(input, s, ls[0]), ls[1..], u);
    }
  }

  lemma InitProgress(input: Input)
    ensures ProgressInv(input, Init(input.workers))
  {
    InitInv(input);
  }

  lemma ReachableProgress(input: Input, s: World)
    requires Reachable(input, s)
    ensures ProgressInv(input, s)
  {
    var ls :| IsRun(input, Init(input.workers), ls, s);
    InitProgress(input);
    RunKeepsProgress(input, Init(input.workers), ls, s);
  }

  // No deadlock but these two.

  /** A step that some worker, the consumer or the stopper can take. */
  ghost predicate CanMove(input: Input, s: World) {
    exists l :: Internal(l) && Enabled(input, s, l)
  }

  /** The worker to look at when worker w is active: the holder of the mutex if w waits for it. */
  function Mover(s: World, w: nat): nat
    requires w < |s.workers|
  {
    if s.workers[w].Locking? && s.pull.mutex.Some? then s.pull.mutex.value else w
  }

  lemma MoverOk(input: Input, s: World, w: nat)
    requires ProgressInv(input, s) && !Jammed(s) && w < |s.workers| && Active(s.workers[w])
    ensures var v := Mover(s, w);
      && v < |s.workers| && Active(s.workers[v])
      && (s.workers[v].Locking? ==> s.pull.mutex.None?)
      && (s.workers[v].Calling? ==> s.workers[v].item < |input.items|)
      && (s.workers[v].Holding? ==> s.pull.mutex == Some(v))
  {
    var v := Mover(s, w);
    assert WorkerOk(|input.items|, s.pull, s.hist.sent, v, s.workers[v]);
  }

  /** An active worker can move, or the holder of the mutex waits at its select. */
  lemma WorkerMoves(input: Input, s: World, w: nat)
    requires ProgressInv(input, s) && !Jammed(s) && w < |s.workers| && Active(s.workers[w])
    ensures CanMove(input, s) ||
      (s.workers[Mover(s, w)].Holding? && s.pull.mutex == Some(Mover(s, w))
       && |s.chans.queue| >= input.workers && !s.chans.earlyBreak && !s.chans.closed && !s.nested.ctxDone)
  {
    MoverOk(input, s, w);
    var v := Mover(s, w);
    var sel := if s.chans.earlyBreak then SelBreak else if s.nested.ctxDone then SelDone else SelSend;
    if !s.workers[v].Holding? || SelectReady(s, input.workers, sel) {
      assert Enabled(input, s, Work(v, sel)) && Internal(Work(v, sel));
    }
  }

  lemma StopperMoves(input: Input, s: World)
    requires s.nested.phase.Firing? || s.nested.phase.Closing?
    ensures CanMove(input, s)
  {
    assert Enabled(input, s, Finish) && Internal(Finish);
  }

  lemma ConsumerMoves(input: Input, s: World)
    requires ConsumeEnabled(s)
    ensures CanMove(input, s)
  {
    assert Enabled(input, s, Consume(More)) && Internal(Consume(More));
  }

  lemma ReceivingMoves(input: Input, s: World)
    requires ProgressInv(input, s) && !Jammed(s) && s.consumer.Receiving?
    ensures CanMove(input, s)
  {
    if s.chans.queue != [] || s.chans.closed {
      ConsumerMoves(input, s);
    } else if Live(s.workers) > 0 {
      var w := LiveWitness(s.workers);
      WorkerMoves(input, s, w);
    } else {
      StopperMoves(input, s);
    }
  }

  lemma WaitingMoves(input: Input, s: World)
    requires ProgressInv(input, s) && s.consumer.Waiting?
    ensures CanMove(input, s)
  {
    if s.consumer.i in s.chans.slots {
      ConsumerMoves(input, s);
    } else {
      var w :| 0 <= w < |s.workers| && Delivers(s.workers[w], s.consumer.i);
      assert WorkerOk(|input.items|, s.pull, s.hist.sent, w, s.workers[w]);
      assert Enabled(input, s, Work(w, SelSend)) && Internal(Work(w, SelSend));
    }
  }

  /** After the loop: an early break lets the holder of the mutex leave its select, and
      without one the queue is empty, unless the loop body unwound. */
  lemma EndingMoves(input: Input, s: World)
    requires ProgressInv(input, s) && !Jammed(s) && !Abandoned(input, s) && !Final(s)
    requires s.consumer.WaitDone? || s.consumer.Unpull? || s.consumer.Finished?
    ensures CanMove(input, s)
  {
    if s.nested.phase.Firing? || s.nested.phase.Closing? {
      StopperMoves(input, s);
    } else if Live(s.workers) > 0 {
      var w := LiveWitness(s.workers);
      WorkerMoves(input, s, w);
    } else {
      if s.pull.mutex.Some? { LiveMember(s.workers, s.pull.mutex.value); }
      ConsumerMoves(input, s);
    }
  }

  /** In every reachable state that is neither jammed nor abandoned, either everything is
      finished or some worker, the consumer or the stopper can take a step. */
  lemma NeverStuck(input: Input, s: World)
    requires ProgressInv(input, s) && !Jammed(s) && !Abandoned(input, s) && !Final(s)
    ensures CanMove(input, s)
  {
    match s.consumer
    case Receiving => ReceivingMoves(input, s);
    case Waiting(_) => WaitingMoves(input, s);
    case WaitDone => EndingMoves(input, s);
    case Unpull => EndingMoves(input, s);
    case Finished => EndingMoves(input, s);
    case _ => ConsumerMoves(input, s);
  }

  /** The exact condition: a state in which nobody can move is the end of the operator if
      and only if the mutex is not jammed and no worker is abandoned. */
  lemma StuckIff(input: Input, s: World)
    requires Reachable(input, s) && !CanMove(input, s)
    ensures Final(s) <==> !Jammed(s) && !Abandoned(input, s)
  {
    ReachableProgress(input, s);
    if !Jammed(s) && !Abandoned(input, s) && !Final(s) { NeverStuck(input, s); }
    if Abandoned(input, s) { LiveMember(s.workers, s.pull.mutex.value); }
  }

  /** What a caller can rely on: a run that nobody can continue has finished, whatever was
      cancelled, broken off or refused, if the input does not panic, the loop body did not
      unwind, and no grace period expired. */
  lemma EndsUnlessProvoked(input: Input, s: World)
    requires Reachable(input, s) && !CanMove(input, s)
    requires !input.panics && !s.hist.threw && !s.hist.expired
    ensures Final(s)
  {
    StuckIff(input, s);
    ReachableProgress(input, s);
  }

  // The jam.

  lemma StepJams(input: Input, s: World, l: Label)
    requires ProgressInv(input, s) && Enabled(input, s, l)
    ensures Jammed(Step(input, s, l)) <==> Jammed(s) || (l.Work? && PanicsLocked(input, s, l.w, l.sel))
  {
    if l.Work? { WorkJams(input, s, l.w, l.sel); }
    else { OtherFrame(input, s, l); FramedJam(input, s, Step(input, s, l)); }
  }

  /** The cleanup of the consumer needs the mutex once more, so with a jammed mutex no
      continuation ever finishes, whatever the environment does. */
  lemma {:induction false} JamIsForever(input: Input, s: World, ls: seq<Label>, u: World)
    requires ProgressInv(input, s) && IsRun(input, s, ls, u) && Jammed(s)
    ensures Jammed(u) && !u.consumer.Finished? && !Final(u)
    decreases |ls|
  {
    if ls != [] {
      StepKeepsProgress(input, s, ls[0]);
      StepJams(input, s, ls[0]);
      JamIsForever(input, Step(input, s, ls[0]), ls[1..], u);
    }
  }

  /** An abandoned worker stays where it is until the grace period of a stop expires, which
      jams the mutex or frees it, or the enclosing context is cancelled. */
  lemma AbandonedStays(input: Input, s: World, l: Label)
    requires ProgressInv(input, s) && Enabled(input, s, l) && Abandoned(input, s)
    requires !l.EnvExpire? && !l.EnvCancel?
    ensures Abandoned(input, Step(input, s, l))
  {
    var h := s.pull.mutex.value;
    LiveMember(s.workers, h);
    StepKeepsProgress(input, s, l);
    if l.Work? {
      AbandonedWork(input, s, l.w, l.sel);
    } else {
      OtherFrame(input, s, l);
      AbandonedOther(input, s, l);
    }
  }

  lemma AbandonedWork(input: Input, s: World, w: nat, sel: Select)
    requires ProgressInv(input, s) && WorkEnabled(input, s, w, sel) && Abandoned(input, s)
    ensures Abandoned(input, WorkStep(input, s, w, sel))
  {
    var h, u := s.pull.mutex.value, WorkStep(input, s, w, sel);
    assert w != h;
    WorkFrame(input, s, w, sel);
    WorkMutex(input, s, w, sel);
    WorkStops(input, s, w, sel);
    WorkQueue(input, s, w, sel);
    assert WorkerOk(|input.items|, s.pull, s.hist.sent, w, s.workers[w]);
    AwayFromSelect(input, s, w, sel);
    assert u.workers[h] == s.workers[h];
    LiveMember(u.workers, h);
    LiveMember(s.workers, h);
  }

  lemma AwayFromSelect(input: Input, s: World, w: nat, sel: Select)
    requires WorkEnabled(input, s, w, sel) && !s.workers[w].Holding?
    ensures WorkStep(input, s, w, sel).chans.queue == s.chans.queue
  {
    WorkLeaves(input, s, w, sel);
  }

  lemma AbandonedOther(input: Input, s: World, l: Label)
    requires ProgressInv(input, s) && Enabled(input, s, l) && Abandoned(input, s)
    requires !l.Work? && !l.EnvExpire? && !l.EnvCancel? && Live(s.workers) > 0
    requires Framed(s, Step(input, s, l))
    ensures Abandoned(input, Step(input, s, l))
  {
    assert s.consumer.Stopping? || s.consumer.Unpull?;
  }

  lemma {:induction false} AbandonedIsStuck(input: Input, s: World, ls: seq<Label>, u: World)
    requires ProgressInv(input, s) && IsRun(input, s, ls, u) && Abandoned(input, s)
    requires forall l :: l in ls ==> !l.EnvExpire? && !l.EnvCancel?
    ensures Abandoned(input, u) && !Final(u)
    decreases |ls|
  {
    if ls == [] {
      LiveMember(s.workers, s.pull.mutex.value);
    } else {
      assert ls[0] in ls;
      StepKeepsProgress(input, s, ls[0]);
      AbandonedStays(input, s, ls[0]);
      AbandonedIsStuck(input, Step(input, s, ls[0]), ls[1..], u);
    }
  }

  // Whether an undisturbed run ends.

  /** What stops an undisturbed run is the input's panic, and by then everything that the
      input gave has been yielded. */
  lemma UndisturbedStop(input: Input, s: World)
    requires ProgressInv(input, s) && !CanMove(input, s) && !Disturbed(s) && SomeStarted(s)
    ensures s.yielded == AllResults(input)
    ensures Final(s) <==> !Jammed(s)
    ensures Jammed(s) <==> input.panics
  {
    if !Jammed(s) && !Final(s) { NeverStuck(input, s); }
    if Jammed(s) {
      JammedStop(input, s);
    } else {
      DrainedEnds(input, s);
    }
    AllYielded(input, s);
  }

  lemma JammedStop(input: Input, s: World)
    requires ProgressInv(input, s) && !CanMove(input, s) && !Disturbed(s) && Jammed(s)
    ensures input.panics && s.pull.pos == |input.items| && Held(s) == 0
    ensures s.chans.queue == [] && Current(s.consumer) == []
  {
    if s.consumer.Waiting? { WaitingMoves(input, s); }
    if ConsumeEnabled(s) { ConsumerMoves(input, s); }
  }

  /** The exact condition on the input.  In a run without a cancellation, a break or a panic
      of the loop body and an expired grace period, in which some worker was started: when
      nobody can move any more, everything that the input gave has been yielded, in order;
      and the operator has finished if and only if the input does not end in a panic. */
  lemma UndisturbedEndsIff(input: Input, s: World)
    requires Reachable(input, s) && !CanMove(input, s) && !Disturbed(s) && SomeStarted(s)
    ensures s.yielded == AllResults(input)
    ensures Final(s) <==> !input.panics
  {
    ReachableProgress(input, s);
    UndisturbedStop(input, s);
  }
}
