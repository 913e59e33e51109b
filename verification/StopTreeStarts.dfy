/**
  The moment at which a deferred callback starts: only when everything that comes
  before it in its node's hard stop has completed.
 */
module StopTreeStarts {
  import opened StateNode
  import opened StopTree
  import opened StopTreeLocal
  import opened StopTreeConclusion
  import opened StopTreeInvariant
  import opened StopTreeRuns

  /** A callback of node i that has been started, or its cancel past the point of detaching. */
  predicate Begun(i: NodeId, a: Action) {
    (a.Running? || a.Returned? || a.CancelCtx?) && a.n == i
  }

  /** Nothing of node i is ahead of what has begun. */
  ghost predicate BegunFirst(i: NodeId, prog: seq<Action>) {
    forall k :: 0 <= k < |prog| && Begun(i, prog[k]) ==> Pending(i, prog[..k]) == []
  }

  ghost predicate AllBegunFirst(s: State) {
    forall i: NodeId, t :: 0 <= t < |s.threads| ==> BegunFirst(i, s.threads[t])
  }

  lemma PushesBegun(i: NodeId, a: Action, c: Cell, now: int, t: nat, ch: Choice)
    requires Ready(a, c, now, ch)
    ensures BegunFirst(i, Exec(a, c, now, t, ch).push)
    ensures BegunFirst(i, Exec(a, c, now, t, ch).spawn)
  {
    if Stopper(a) {
      StopperBegun(i, a, c, now, t, ch);
    } else if a.Inc? {
      IncEffect(a, c, now);
      var e := Exec(a, c, now, t, ch);
      forall b | b in e.push + e.spawn ensures !Begun(i, b) { }
    } else if !a.Hooks? {
      LightBegun(i, a, c, now, t, ch);
    }
  }

  lemma StopperBegun(i: NodeId, a: Action, c: Cell, now: int, t: nat, ch: Choice)
    requires Ready(a, c, now, ch) && Stopper(a)
    ensures BegunFirst(i, Exec(a, c, now, t, ch).push) && Exec(a, c, now, t, ch).spawn == []
  {
    StopperOutcome(a, c, now, t, ch);
    var push := Exec(a, c, now, t, ch).push;
    forall k | 0 <= k < |push| ensures !Begun(i, push[k]) { StopperPushes(a, c, now, t, ch, push[k]); }
  }

  lemma LightBegun(i: NodeId, a: Action, c: Cell, now: int, t: nat, ch: Choice)
    requires Shaped(a) && Allowed(a, ch) && Light(a)
    ensures BegunFirst(i, Exec(a, c, now, t, ch).push)
    ensures BegunFirst(i, Exec(a, c, now, t, ch).spawn)
  {
    LightEffect(a, c, now, t, ch);
    var push := Exec(a, c, now, t, ch).push;
    forall k | 0 <= k < |push| && Begun(i, push[k]) ensures Pending(i, push[..k]) == [] {
      if k == 1 {
        assert push[..1] == [push[0]] && push[0].DetachCheck?;
        PendingOne(i, push[0]);
      }
    }
  }

  /** What begins stays first when the action at the head is replaced by other work. */
  lemma RestBegun(i: NodeId, a: Action, push: seq<Action>, rest: seq<Action>)
    requires BegunFirst(i, [a] + rest) && BegunFirst(i, push)
    requires (exists b :: b in rest && Begun(i, b)) && ItemOf(i, a) == [] ==> Pending(i, push) == []
    ensures BegunFirst(i, push + rest)
  {
    forall k | 0 <= k < |push + rest| && Begun(i, (push + rest)[k]) ensures Pending(i, (push + rest)[..k]) == [] {
      if k < |push| { EarlierBegun(i, push, rest, k); }
      else { LaterAt(i, a, push, rest, k); }
    }
  }

  lemma LaterAt(i: NodeId, a: Action, push: seq<Action>, rest: seq<Action>, k: nat)
    requires BegunFirst(i, [a] + rest) && |push| <= k < |push + rest| && Begun(i, (push + rest)[k])
    requires (exists b :: b in rest && Begun(i, b)) && ItemOf(i, a) == [] ==> Pending(i, push) == []
    ensures Pending(i, (push + rest)[..k]) == []
  {
    assert rest[k - |push|] == (push + rest)[k];
    LaterBegun(i, a, push, rest, k - |push|);
  }

  lemma EarlierBegun(i: NodeId, push: seq<Action>, rest: seq<Action>, k: nat)
    requires BegunFirst(i, push) && k < |push| && Begun(i, (push + rest)[k])
    ensures Pending(i, (push + rest)[..k]) == []
  {
    assert Begun(i, push[k]) && (push + rest)[..k] == push[..k];
  }

  lemma LaterBegun(i: NodeId, a: Action, push: seq<Action>, rest: seq<Action>, j: nat)
    requires BegunFirst(i, [a] + rest) && j < |rest| && Begun(i, rest[j])
    requires ItemOf(i, a) == [] ==> Pending(i, push) == []
    ensures Pending(i, (push + rest)[..|push| + j]) == []
  {
    var prog := [a] + rest;
    assert Begun(i, prog[j + 1]);
    assert prog[..j + 1] == [a] + rest[..j] && (push + rest)[..|push| + j] == push + rest[..j];
    PendingConcat(i, push, rest[..j]);
    PendingConcat(i, [a], rest[..j]);
    PendingOne(i, a);
  }

  lemma RunBegun(s: State, t: nat, ch: Choice, i: NodeId)
    requires Inv(s) && Enabled(s, Run(t, ch)) && BegunFirst(i, s.threads[t])
    ensures BegunFirst(i, StepRun(s, t, ch).threads[t])
    ensures BegunFirst(i, RunEffect(s, t, ch).spawn)
  {
    RunReady(s, t, ch);
    PushesBegun(i, s.threads[t][0], s.cells[Target(s.threads[t][0])], s.now, t, ch);
    ProgBegun(s, t, ch, i);
  }

  lemma ProgBegun(s: State, t: nat, ch: Choice, i: NodeId)
    requires Inv(s) && Enabled(s, Run(t, ch)) && BegunFirst(i, s.threads[t])
    requires BegunFirst(i, RunEffect(s, t, ch).push)
    ensures BegunFirst(i, RunEffect(s, t, ch).push + s.threads[t][1..])
  {
    var a, rest := s.threads[t][0], s.threads[t][1..];
    assert s.threads[t] == [a] + rest;
    if (exists b :: b in rest && Begun(i, b)) && ItemOf(i, a) == [] { NothingAhead(s, t, ch, i); }
    RestBegun(i, a, RunEffect(s, t, ch).push, rest);
  }

  lemma NothingAhead(s: State, t: nat, ch: Choice, i: NodeId)
    requires Inv(s) && Enabled(s, Run(t, ch))
    requires exists b :: b in s.threads[t][1..] && Begun(i, b)
    requires ItemOf(i, s.threads[t][0]) == []
    ensures Pending(i, RunEffect(s, t, ch).push) == []
  {
    var b :| b in s.threads[t][1..] && Begun(i, b);
    BegunMeansSpent(s, t, i, b);
    NothingNew(s, t, ch, i);
  }

  lemma BegunMeansSpent(s: State, t: nat, i: NodeId, b: Action)
    requires Inv(s) && t < |s.threads| && b in s.threads[t] && Begun(i, b)
    ensures i < |s.cells| && !s.cells[i].node.armed && s.cells[i].node.stopping
  {
    assert ActOk(s.cells, s.now, b) && CellOk(s.cells[i]);
  }

  /** Once the cancel is taken, only items of the script lead to items of the script. */
  lemma NothingNew(s: State, t: nat, ch: Choice, i: NodeId)
    requires Inv(s) && Enabled(s, Run(t, ch)) && i < |s.cells| && !s.cells[i].node.armed
    requires ItemOf(i, s.threads[t][0]) == []
    ensures Pending(i, RunEffect(s, t, ch).push) == []
  {
    RunReady(s, t, ch);
    var a := s.threads[t][0];
    var c, e := s.cells[Target(a)], RunEffect(s, t, ch);
    if i == Target(a) {
      ExecAdvances(a, c, s.now, t, ch);
      ExecGrows(a, c, s.now, t, ch);
      assert |e.cell.hist.trace + Pending(i, e.push)| == |c.hist.trace|;
    } else {
      ExecElsewhere(i, a, c, s.now, t, ch);
    }
  }

  lemma StepBegun(s: State, l: Label)
    requires Inv(s) && Enabled(s, l) && AllBegunFirst(s)
    ensures AllBegunFirst(Step(s, l))
  {
    var u := Step(s, l);
    forall i: NodeId, t | 0 <= t < |u.threads| ensures BegunFirst(i, u.threads[t]) {
      if t < |s.threads| { assert BegunFirst(i, s.threads[t]); }
      match l
      case Run(r, ch) =>
        assert BegunFirst(i, s.threads[r]);
        RunBegun(s, r, ch, i);
      case CallApi(r, api) =>
        if t == r { ApiBegun(s, r, api, i); }
      case _ =>
    }
  }

  lemma ApiBegun(s: State, t: nat, api: Api, i: NodeId)
    requires Inv(s) && Enabled(s, CallApi(t, api)) && BegunFirst(i, s.threads[t])
    ensures BegunFirst(i, ApiActions(s, api) + s.threads[t])
  {
    var acts, prog := ApiActions(s, api), s.threads[t];
    var cells := ApiCells(s, api);
    ApiPlain(s, cells, api);
    PlainReads(cells, s.now, acts, i);
    forall k | 0 <= k < |acts + prog| && Begun(i, (acts + prog)[k])
      ensures Pending(i, (acts + prog)[..k]) == []
    {
      if k < |acts| {
        assert acts[k] in acts;
      } else {
        var j := k - |acts|;
        assert (acts + prog)[..k] == acts + prog[..j] && Begun(i, prog[j]);
        PendingConcat(i, acts, prog[..j]);
      }
    }
  }

  lemma {:induction false} RunsBegun(s: State, ls: seq<Label>, u: State)
    requires Inv(s) && IsRun(s, ls, u) && AllBegunFirst(s)
    ensures AllBegunFirst(u)
    decreases |ls|
  {
    if ls != [] {
      StepBegun(s, ls[0]);
      StepKeepsInv(s, ls[0]);
      RunsBegun(Step(s, ls[0]), ls[1..], u);
    }
  }

  lemma ReachableBegun(s: State)
    requires Reachable(s)
    ensures AllBegunFirst(s)
  {
    var now, ls :| IsRun(Init(now), ls, s);
    assert Inv(Init(now)) && AllBegunFirst(Init(now));
    RunsBegun(Init(now), ls, s);
  }

  /** A callback of node i that has been started, wherever it is pending, is the very next
      item of the hard stop: Stopping is closed, and every callback accepted after it has
      completed.  The same holds of the cancel, which follows all callbacks. */
  lemma StartsInTurn(s: State, i: NodeId, t: nat, a: Action)
    requires Reachable(s) && t < |s.threads| && a in s.threads[t] && Begun(i, a)
    ensures i < |s.cells| && s.cells[i].node.stopping && s.cells[i].hist.cause.Some?
    ensures var h := s.cells[i].hist;
      h.trace + ItemOf(i, a) <= Script(h.accepted, h.cause.value)
  {
    ReachableInv(s);
    ReachableBegun(s);
    BegunMeansSpent(s, t, i, a);
    assert BegunFirst(i, s.threads[t]);
    var later := FirstItem(i, s.threads[t], a);
    assert PendingOk(s, i, t);
    InTurn(s.cells[i], t, ItemOf(i, a), later);
  }

  /** What has begun is the first item that its program will complete. */
  lemma FirstItem(i: NodeId, prog: seq<Action>, a: Action) returns (later: seq<Item>)
    requires a in prog && Begun(i, a) && BegunFirst(i, prog)
    ensures Pending(i, prog) == ItemOf(i, a) + later
  {
    var k :| 0 <= k < |prog| && prog[k] == a;
    PendingSplit(i, prog, k);
    later := Pending(i, prog[k + 1..]);
    assert Pending(i, prog[..k]) == [];
  }

  lemma InTurn(c: Cell, t: nat, item: seq<Item>, later: seq<Item>)
    requires item != [] && Fulfils(c, t, item + later)
    ensures c.hist.cause.Some? && c.hist.trace + item <= Script(c.hist.accepted, c.hist.cause.value)
  {
    assert c.hist.trace + (item + later) == (c.hist.trace + item) + later;
  }

  lemma PendingSplit(i: NodeId, prog: seq<Action>, k: nat)
    requires k < |prog|
    ensures Pending(i, prog) == Pending(i, prog[..k]) + (ItemOf(i, prog[k]) + Pending(i, prog[k + 1..]))
  {
    assert prog == prog[..k] + prog[k..];
    assert prog[k..][1..] == prog[k + 1..];
    PendingConcat(i, prog[..k], prog[k..]);
  }
}
