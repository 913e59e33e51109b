/**
  Concrete reachable runs of ordered Map that get stuck, one for each way to do so.
 */
module OrderedMapWitness {
  import opened Options
  import opened SeqStopper
  import opened OrderedMap
  import opened OrderedMapLife
  import opened OrderedMapProgress

  lemma RunCons(input: Input, s: World, l: Label, ls: seq<Label>, u: World)
    requires Enabled(input, s, l) && IsRun(input, Step(input, s, l), ls, u)
    ensures IsRun(input, s, [l] + ls, u)
  {
    assert ([l] + ls)[0] == l && ([l] + ls)[1..] == ls;
  }

  lemma {:induction false} RunJoin(input: Input, s: World, ls: seq<Label>, v: World, ms: seq<Label>, u: World)
    requires IsRun(input, s, ls, v) && IsRun(input, v, ms, u)
    ensures IsRun(input, s, ls + ms, u)
    decreases |ls|
  {
    if ls == [] {
      assert ls + ms == ms;
    } else {
      RunJoin(input, Step(input, s, ls[0]), ls[1..], v, ms, u);
      RunCons(input, s, ls[0], ls[1..] + ms, u);
      assert [ls[0]] + (ls[1..] + ms) == ls + ms;
    }
  }

  lemma Then(input: Input, s: World, l: Label) returns (u: World)
    requires Reachable(input, s) && Enabled(input, s, l)
    ensures u == Step(input, s, l) && Reachable(input, u)
  {
    u := Step(input, s, l);
    var ls :| IsRun(input, Init(input.workers), ls, s);
    RunCons(input, s, l, [], u);
    assert [l] + [] == [l];
    RunJoin(input, Init(input.workers), ls, s, [l], u);
  }

  /** Only these fields of a state with one worker matter below. */
  ghost predicate At(input: Input, s: World, x: Worker, c: Consumer, pos: nat, queue: seq<nat>) {
    && Reachable(input, s) && s.workers == [x] && s.consumer == c
    && s.pull.idx == s.pull.pos == pos && !s.pull.closed && s.chans.queue == queue
    && !s.chans.closed && !s.chans.earlyBreak && !s.nested.ctxDone && s.nested.phase.Armed?
    && s.nested.registered
  }

  /** The only worker has been started and is at the head of its loop. */
  lemma Started(input: Input) returns (s: World)
    requires input.workers == 1
    ensures At(input, s, Top, Spawning(1), 0, []) && s.pull.mutex == None
    ensures s.hist == Init(1).hist && !s.nested.stopping
  {
    s := Init(1);
    assert IsRun(input, Init(1), [], s);
    s := Then(input, s, Consume(More));
    s := Then(input, s, Consume(More));
    assert s.workers == [Top];
  }

  /** Stuck for good: no continuation ever finishes. */
  ghost predicate Hopeless(input: Input, s: World) {
    && Reachable(input, s) && Jammed(s)
    && forall ls, u :: IsRun(input, s, ls, u) ==> !Final(u)
  }

  lemma JamIsHopeless(input: Input, s: World)
    requires Reachable(input, s) && Jammed(s)
    ensures Hopeless(input, s)
  {
    ReachableProgress(input, s);
    forall ls, u | IsRun(input, s, ls, u) ensures !Final(u) { JamIsForever(input, s, ls, u); }
  }

  /** The worker takes the next item as far as its select. */
  lemma PullsNext(input: Input, s: World, c: Consumer, i: nat, queue: seq<nat>) returns (u: World)
    requires At(input, s, Top, c, i, queue) && s.pull.mutex == None && i < |input.items|
    ensures At(input, u, Holding(i, i), c, i + 1, queue) && u.pull.mutex == Some(0)
    ensures u.chans == s.chans && u.hist == s.hist
  {
    u := Then(input, s, Work(0, SelSend));
    u := Then(input, u, Work(0, SelSend));
  }

  /** A stop whose grace period expires closes the results under the worker's hands. */
  lemma ClosedEarly(input: Input, s: World) returns (u: World)
    requires At(input, s, Holding(0, 0), Spawning(1), 1, []) && s.pull.mutex == Some(0)
    ensures Reachable(input, u) && u.workers == s.workers && u.chans.closed && u.pull == s.pull
  {
    LiveMember(s.workers, 0);
    u := Then(input, s, EnvStop);
    u := Then(input, u, EnvExpire);
    u := Then(input, u, Finish);
  }

  /** The only worker has pulled the only item and is about to enqueue it when the grace
      period of a stop expires and closes the results. */
  lemma GraceExpiryJams(x: Item, fn: (nat, Item) -> Result, handler: Handler) returns (s: World)
    ensures Hopeless(Input([x], false, fn, 1, handler), s)
  {
    var input := Input([x], false, fn, 1, handler);
    s := Started(input);
    s := PullsNext(input, s, Spawning(1), 0, []);
    s := ClosedEarly(input, s);
    s := Then(input, s, Work(0, SelSend));
    JamIsHopeless(input, s);
  }

  /** The input panics on the first pull of the only worker.  No grace period expires and
      nobody else interferes. */
  lemma InputPanicJams(fn: (nat, Item) -> Result, handler: Handler) returns (s: World)
    ensures Hopeless(Input([], true, fn, 1, handler), s)
    ensures !Disturbed(s) && s.nested.phase.Armed?
  {
    var input := Input([], true, fn, 1, handler);
    s := Started(input);
    s := Then(input, s, Work(0, SelSend));
    s := Then(input, s, Work(0, SelSend));
    JamIsHopeless(input, s);
  }

  // A loop body that unwinds.

  /** It enqueues the item and calls the function. */
  lemma Calls(input: Input, s: World, c: Consumer, i: nat) returns (u: World)
    requires At(input, s, Holding(i, i), c, i + 1, []) && s.pull.mutex == Some(0)
    requires i < |input.items| && input.workers == 1
    ensures At(input, u, Calling(i, i), c, i + 1, [i]) && u.pull.mutex == None
  {
    u := Then(input, s, Work(0, SelSend));
    u := Then(input, u, Work(0, SelSend));
  }

  /** It delivers the result. */
  lemma Delivered(input: Input, s: World, c: Consumer, i: nat, queue: seq<nat>) returns (u: World)
    requires At(input, s, Calling(i, i), c, i + 1, queue) && s.pull.mutex == None && i < |input.items|
    ensures At(input, u, Top, c, i + 1, queue) && u.pull.mutex == None && i in u.chans.slots
  {
    u := Then(input, s, Work(0, SelSend));
    u := Then(input, u, Work(0, SelSend));
  }

  /** The first result is in the hands of the caller's loop, and nothing is queued. */
  lemma FirstYielding(input: Input) returns (s: World, r: Result)
    requires input.workers == 1 && |input.items| == 3
    ensures At(input, s, Top, Yielding(0, r), 1, []) && s.pull.mutex == None
  {
    s := Started(input);
    s := PullsNext(input, s, Spawning(1), 0, []);
    s := Calls(input, s, Spawning(1), 0);
    s := Delivered(input, s, Spawning(1), 0, [0]);
    s := Then(input, s, Consume(More));
    LiveMember(s.workers, 0);
    s := Then(input, s, Consume(More));
    s := Then(input, s, Consume(More));
    r := s.chans.slots[0];
    s := Then(input, s, Consume(More));
  }

  /** A loop body that unwinds while the only worker holds the third item leaves it at its
      select: the second item fills the queue, which nobody reads. */
  lemma UnwindingAbandons(xs: seq<Item>, fn: (nat, Item) -> Result, handler: Handler) returns (s: World)
    requires |xs| == 3
    ensures var input := Input(xs, false, fn, 1, handler);
      Reachable(input, s) && Abandoned(input, s) && !Jammed(s) && !s.hist.expired
  {
    var input := Input(xs, false, fn, 1, handler);
    var r: Result;
    s, r := FirstYielding(input);
    s := PullsNext(input, s, Yielding(0, r), 1, []);
    s := Calls(input, s, Yielding(0, r), 1);
    s := Delivered(input, s, Yielding(0, r), 1, [1]);
    s := PullsNext(input, s, Yielding(0, r), 2, [1]);
    s := Then(input, s, Consume(Unwinds));
    ReachableProgress(input, s);
  }
}
