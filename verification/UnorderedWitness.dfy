/**
  Concrete reachable runs of the unordered operators: one that never returns, and a
  cancelled ForEach that returns nil.
 */
module UnorderedWitness {
  import opened Options
  import opened SeqStopper
  import opened Unordered
  import opened UnorderedLife
  import opened UnorderedProgress

  lemma Start(input: Input) returns (s: World)
    ensures s == Init(input.workers) && Reachable(input, s)
  {
    s := Init(input.workers);
    assert IsRun(input, Init(input.workers), [], s);
  }

  lemma RunCons(input: Input, s: World, l: Label, ls: seq<Label>, u: World)
    requires Enabled(input, s, l) && IsRun(input, Step(input, s, l), ls, u)
    ensures IsRun(input, s, [l] + ls, u)
  {
    assert ([l] + ls)[0] == l && ([l] + ls)[1..] == ls;
  }

  lemma {:induction false} RunThen(input: Input, s: World, ls: seq<Label>, u: World, l: Label)
    requires IsRun(input, s, ls, u) && Enabled(input, u, l)
    ensures IsRun(input, s, ls + [l], Step(input, u, l))
    decreases |ls|
  {
    if ls == [] {
      RunCons(input, s, l, [], Step(input, u, l));
      assert ls + [l] == [l] + [];
    } else {
      RunThen(input, Step(input, s, ls[0]), ls[1..], u, l);
      RunCons(input, s, ls[0], ls[1..] + [l], Step(input, u, l));
      assert [ls[0]] + (ls[1..] + [l]) == ls + [l];
    }
  }

  lemma Then(input: Input, s: World, l: Label) returns (u: World)
    requires Reachable(input, s) && Enabled(input, s, l)
    ensures u == Step(input, s, l) && Reachable(input, u)
  {
    u := Step(input, s, l);
    var ls :| IsRun(input, Init(input.workers), ls, s);
    RunThen(input, Init(input.workers), ls, s, l);
  }

  /** The only worker has been started. */
  lemma Started(input: Input) returns (s: World)
    requires input.workers == 1
    ensures Reachable(input, s) && s.workers == [Top] && s.consumer == Spawning(1)
    ensures s.pull == Puller(0, 0, false, false) && s.hist == Init(1).hist && !s.cancelled
    ensures s.out == Init(1).out && s.nested == Init(1).nested.(registered := !input.collects)
  {
    s := Start(input);
    s := Then(input, s, Consume(More));
    s := Then(input, s, Consume(More));
    assert s.workers == [Top];
  }

  /** The input panics on the first pull of the only worker.  No grace period expires and
      nobody else interferes. */
  lemma InputPanicJams(fn: (nat, Item) -> Result, failed: Result -> bool, collects: bool, handler: Handler)
    returns (s: World)
    ensures var input := Input([], true, fn, failed, 1, collects, handler);
      && Reachable(input, s) && s.pull.jammed && !Disturbed(s)
      && forall ls, u :: IsRun(input, s, ls, u) ==> !u.consumer.Finished?
  {
    var input := Input([], true, fn, failed, 1, collects, handler);
    s := Started(input);
    s := Then(input, s, Work(0, SelSend));
    s := Then(input, s, Work(0, SelSend));
    ReachableInv(input, s);
    forall ls, u | IsRun(input, s, ls, u) ensures !u.consumer.Finished? { JamIsForever(input, s, ls, u); }
  }

  /** The context of a ForEach is cancelled before its only item is pulled.  WaitCtx finds
      both contexts done, takes the nested one, and returns nil. */
  lemma CancelledReturnsNil(x: Item, fn: (nat, Item) -> Result, failed: Result -> bool, handler: Handler)
    returns (s: World)
    ensures var input := Input([x], false, fn, failed, 1, true, handler);
      Reachable(input, s) && Waited(s) && s.cancelled && s.report == None && s.out.delivered == []
  {
    var input := Input([x], false, fn, failed, 1, true, handler);
    s := Started(input);
    s := Then(input, s, Consume(More));
    LiveMember(s.workers, 0);
    s := Then(input, s, Consume(More));
    s := Then(input, s, EnvCancel(false, true));
    s := Then(input, s, Consume(More));
  }
}
