/**
  Runs of the protocol: the other steps keep the invariant too, so every reachable
  state satisfies it.
 */
module StopTreeRuns {
  import opened StateNode
  import opened StopTree
  import opened StopTreeGauges
  import opened StopTreeConclusion
  import opened StopTreePaths
  import opened StopTreeInvariant

  /** A run takes the steps named by its labels, one after the other. */
  ghost predicate IsRun(s: State, ls: seq<Label>, u: State)
    decreases |ls|
  {
    if ls == [] then s == u
    else ParentsBelow(s.cells) && Enabled(s, ls[0]) && IsRun(Step(s, ls[0]), ls[1..], u)
  }

  ghost predicate Reachable(s: State) {
    exists now, ls :: IsRun(Init(now), ls, s)
  }

  /** Ids that do not exist yet are neither held nor scheduled. */
  lemma {:induction false} ProgForeign(cells: seq<Cell>, now: int, prog: seq<Action>, i: NodeId)
    requires ParentsBelow(cells) && ProgOk(cells, now, prog) && i >= |cells|
    ensures ReadProg(Holds(i), prog) == 0 && Pending(i, prog) == []
  {
    if prog != [] {
      var a := prog[0];
      assert a in prog && ActOk(cells, now, a);
      if a.Inc? {
        PathBounded(cells, a.done + a.todo);
        assert i !in a.done + a.todo;
        assert i !in a.done;
      } else if a.Body? || a.Handle? {
        PathBounded(cells, a.path);
        assert i !in a.path;
      } else if a.Dec? {
        assert i !in a.todo;
      }
      assert Reading(Holds(i), a) == 0;
      assert ItemOf(i, a) == [];
      ProgForeign(cells, now, prog[1..], i);
    }
  }

  lemma {:induction false} AllForeign(cells: seq<Cell>, now: int, threads: seq<seq<Action>>, i: NodeId)
    requires ParentsBelow(cells) && i >= |cells|
    requires forall t :: 0 <= t < |threads| ==> ProgOk(cells, now, threads[t])
    ensures ReadAll(Holds(i), threads) == 0
  {
    if threads != [] {
      ProgForeign(cells, now, threads[|threads| - 1], i);
      AllForeign(cells, now, threads[..|threads| - 1], i);
    }
  }

  /** A program as it stands before a step of the environment: well-formed work that
      holds and owes nothing and completes nothing. */
  ghost predicate Plain(cells: seq<Cell>, now: int, acts: seq<Action>)
    requires ParentsBelow(cells)
  {
    && |acts| <= 1
    && ProgOk(cells, now, acts)
    && forall a :: a in acts ==>
         a.Check? || a.Stop? || a.Idle? || a.Defer? || a.Report? || a.Attach? || a.Expire?
  }

  lemma PlainReads(cells: seq<Cell>, now: int, acts: seq<Action>, i: NodeId)
    requires ParentsBelow(cells) && Plain(cells, now, acts)
    ensures ReadProg(Holds(i), acts) == 0 && Pending(i, acts) == []
    ensures forall x :: ReadProg(Owes(i, x), acts) == 0
  {
  }

  /** The environment adds plain work in front of one thread, and possibly a new node
      that this work attaches to its parent. */
  ghost predicate Prepends(s: State, u: State, t: nat, acts: seq<Action>, added: seq<Cell>)
    requires ParentsBelow(u.cells)
  {
    && t < |s.threads|
    && u == State(s.cells + added, s.threads[t := acts + s.threads[t]], s.now, s.panicked)
    && |added| <= 1
    && (forall c :: c in added ==>
          && c == FreshCell(c.node.parent, c.node.grace)
          && (c.node.parent.Some? ==> exists g :: acts == [Attach(c.node.parent.value, |s.cells|, g)]))
    && Plain(u.cells, u.now, acts)
  }

  lemma PrependKeepsInv(s: State, u: State, t: nat, acts: seq<Action>, added: seq<Cell>)
    requires Inv(s) && ParentsBelow(u.cells) && Prepends(s, u, t, acts, added)
    ensures Inv(u)
  {
    assert CellsGrow(s.cells, u.cells);
    forall r | 0 <= r < |u.threads| ensures ProgOk(u.cells, u.now, u.threads[r]) {
      ProgGrows(s.cells, u.cells, s.now, u.now, s.threads[r]);
    }
    PrependReads(s, u, t, acts, added);
    PrependScripted(s, u, t, acts, added);
    forall i, k | 0 <= i < |u.cells| && k in u.cells[i].node.hooks ensures ChildOf(u.cells, k, i) {
      assert ChildOf(s.cells, k, i);
    }
  }

  lemma PrependReads(s: State, u: State, t: nat, acts: seq<Action>, added: seq<Cell>)
    requires Inv(s) && ParentsBelow(u.cells) && Prepends(s, u, t, acts, added)
    ensures Counted(u) && ErrorsKept(u) && AllReached(u)
  {
    forall i | 0 <= i < |u.cells| ensures u.cells[i].node.count == ReadAll(Holds(i), u.threads) {
      PrependRead(Holds(i), s, u, t, acts, added);
      PlainReads(u.cells, u.now, acts, i);
      if i == |s.cells| { AllForeign(s.cells, s.now, s.threads, i); }
    }
    forall i, x | 0 <= i < |u.cells| ensures Recorded(u.cells[i], x, ReadAll(Owes(i, x), u.threads)) {
      PrependRead(Owes(i, x), s, u, t, acts, added);
      if i < |s.cells| { assert Recorded(s.cells[i], x, ReadAll(Owes(i, x), s.threads)); }
    }
    forall k | 0 <= k < |u.cells| ensures Reached(u, k) {
      PrependRead(StopDue(k), s, u, t, acts, added);
      if k < |s.cells| { assert Reached(s, k); }
      else if acts != [] { ReadOne(StopDue(k), acts[0]); }
    }
  }

  lemma PrependRead(g: Gauge, s: State, u: State, t: nat, acts: seq<Action>, added: seq<Cell>)
    requires ParentsBelow(u.cells) && Prepends(s, u, t, acts, added)
    ensures ReadAll(g, u.threads) == ReadAll(g, s.threads) + ReadProg(g, acts)
  {
    ReadConcat(g, acts, s.threads[t]);
    ReadUpdate(g, s.threads, t, acts + s.threads[t]);
  }

  lemma PrependScripted(s: State, u: State, t: nat, acts: seq<Action>, added: seq<Cell>)
    requires Inv(s) && ParentsBelow(u.cells) && Prepends(s, u, t, acts, added)
    ensures Scripted(u)
  {
    forall i, r | 0 <= i < |u.cells| && 0 <= r < |u.threads| ensures PendingOk(u, i, r) {
      PrependPending(s, u, t, acts, added, i, r);
      PrependFulfils(s, u, t, acts, added, i, r);
    }
  }

  lemma PrependPending(s: State, u: State, t: nat, acts: seq<Action>, added: seq<Cell>, i: NodeId, r: nat)
    requires ParentsBelow(u.cells) && Prepends(s, u, t, acts, added) && r < |u.threads|
    ensures Pending(i, u.threads[r]) == Pending(i, s.threads[r])
  {
    if r == t {
      PlainReads(u.cells, u.now, acts, i);
      PendingConcat(i, acts, s.threads[t]);
    }
  }

  lemma PrependFulfils(s: State, u: State, t: nat, acts: seq<Action>, added: seq<Cell>, i: NodeId, r: nat)
    requires Inv(s) && ParentsBelow(u.cells) && Prepends(s, u, t, acts, added)
    requires i < |u.cells| && r < |u.threads| && Pending(i, u.threads[r]) == Pending(i, s.threads[r])
    ensures PendingOk(u, i, r)
  {
    if i < |s.cells| {
      assert PendingOk(s, i, r);
    } else {
      ProgForeign(s.cells, s.now, s.threads[r], i);
      assert u.cells[i] in added;
    }
  }

  lemma ApiPlain(s: State, later: seq<Cell>, api: Api)
    requires ParentsBelow(s.cells) && ApiTargets(s, api) && later == ApiCells(s, api) && ParentsBelow(later)
    ensures Plain(later, s.now, ApiActions(s, api))
  {
    if api.ApiRun? {
      PathFrame(s.cells, later, api.n);
    } else if api.ApiNew? && api.parent.Some? {
      assert later[|s.cells|] == FreshCell(api.parent, api.grace);
    }
  }

  lemma CallKeepsInv(s: State, t: nat, api: Api)
    requires Inv(s) && Enabled(s, CallApi(t, api))
    ensures Inv(Step(s, CallApi(t, api)))
  {
    var u := Step(s, CallApi(t, api));
    var added := if api.ApiNew? then [FreshCell(api.parent, api.grace)] else [];
    assert u.cells == s.cells + added;
    ApiPlain(s, u.cells, api);
    PrependKeepsInv(s, u, t, ApiActions(s, api), added);
  }

  lemma AppendKeepsInv(s: State, u: State, acts: seq<Action>)
    requires Inv(s) && Plain(s.cells, s.now, acts)
    requires u == s.(threads := s.threads + [acts])
    ensures Inv(u)
  {
    forall g ensures ReadAll(g, u.threads) == ReadAll(g, s.threads) + ReadProg(g, acts) {
      ReadAppend(g, s.threads, acts);
    }
    forall i | 0 <= i < |u.cells| ensures u.cells[i].node.count == ReadAll(Holds(i), u.threads) {
      PlainReads(s.cells, s.now, acts, i);
    }
    forall i, x | 0 <= i < |u.cells| ensures Recorded(u.cells[i], x, ReadAll(Owes(i, x), u.threads)) {
      assert Recorded(s.cells[i], x, ReadAll(Owes(i, x), s.threads));
    }
    forall k | 0 <= k < |u.cells| ensures Reached(u, k) { assert Reached(s, k); }
    forall i, r | 0 <= i < |u.cells| && 0 <= r < |u.threads| ensures PendingOk(u, i, r) {
      PlainReads(s.cells, s.now, acts, i);
      if r < |s.threads| { assert PendingOk(s, i, r); }
    }
  }

  lemma TickKeepsInv(s: State, later: int)
    requires Inv(s) && s.now <= later
    ensures Inv(s.(now := later))
  {
    var u := s.(now := later);
    assert CellsGrow(s.cells, u.cells);
    forall r | 0 <= r < |u.threads| ensures ProgOk(u.cells, u.now, u.threads[r]) {
      ProgGrows(s.cells, u.cells, s.now, u.now, s.threads[r]);
    }
    forall i, x | 0 <= i < |u.cells| ensures Recorded(u.cells[i], x, ReadAll(Owes(i, x), u.threads)) {
      assert Recorded(s.cells[i], x, ReadAll(Owes(i, x), s.threads));
    }
    forall k | 0 <= k < |u.cells| ensures Reached(u, k) { assert Reached(s, k); }
    forall i, r | 0 <= i < |u.cells| && 0 <= r < |u.threads| ensures PendingOk(u, i, r) {
      assert PendingOk(s, i, r);
    }
  }

  lemma StepKeepsInv(s: State, l: Label)
    requires Inv(s) && Enabled(s, l)
    ensures Inv(Step(s, l))
  {
    match l
    case Run(t, ch) => RunKeepsInv(s, t, ch);
    case CallApi(t, api) => CallKeepsInv(s, t, api);
    case NewThread => AppendKeepsInv(s, Step(s, l), []);
    case Tick(later) => TickKeepsInv(s, later);
    case Fire(n, d) => AppendKeepsInv(s, Step(s, l), [Expire(n, d)]);
  }

  lemma {:induction false} RunsKeepInv(s: State, ls: seq<Label>, u: State)
    requires Inv(s) && IsRun(s, ls, u)
    ensures Inv(u)
    decreases |ls|
  {
    if ls != [] {
      StepKeepsInv(s, ls[0]);
      RunsKeepInv(Step(s, ls[0]), ls[1..], u);
    }
  }

  lemma ReachableInv(s: State)
    requires Reachable(s)
    ensures Inv(s)
  {
    var now, ls :| IsRun(Init(now), ls, s);
    assert Inv(Init(now));
    RunsKeepInv(Init(now), ls, s);
  }
}
