/**
  `renderTaskTree` (task_info.go) on a snapshot as it is enumerated: it sorts the siblings
  of each level and then writes them, deciding by counting which entry is the last one.
 */
module TaskTreeRender {
  import opened TaskTree

  /** h is g with its siblings sorted at every level; ties may be broken in any way. */
  ghost predicate Arranges(g: Group, h: Group)
    decreases h
  {
    && h.name == g.name && multiset(h.tasks) == multiset(g.tasks) && SortedTasks(h.tasks)
    && SortedByName(h.children)
    && exists cs: seq<Group> :: ChildrenArranged(g, h, cs)
  }

  /** cs enumerates the children of g in the order of h. */
  ghost predicate ChildrenArranged(g: Group, h: Group, cs: seq<Group>)
    decreases h, 0
  {
    && multiset(cs) == multiset(g.children) && |cs| == |h.children|
    && forall i :: 0 <= i < |cs| ==> Arranges(cs[i], h.children[i])
  }

  // Canonical output.

  lemma {:induction false} ArrangesArranged(g: Group, h: Group)
    requires Arranges(g, h)
    ensures Arranged(h)
    decreases h
  {
    var cs :| ChildrenArranged(g, h, cs);
    forall i | 0 <= i < |h.children| ensures Arranged(h.children[i]) {
      assert Arranges(cs[i], h.children[i]);
      ArrangesArranged(cs[i], h.children[i]);
    }
  }

  lemma NamesRemoveAt(gs: seq<Group>, k: nat)
    requires k < |gs|
    ensures multiset(Names(gs[..k] + gs[k + 1..])) == multiset(Names(gs)) - multiset{gs[k].name}
  {
    RemoveAt(Names(gs), k);
    assert Names(gs)[..k] + Names(gs)[k + 1..] == Names(gs[..k] + gs[k + 1..]);
  }

  lemma {:induction false} NamesPermute(gs: seq<Group>, cs: seq<Group>)
    requires multiset(gs) == multiset(cs)
    ensures multiset(Names(gs)) == multiset(Names(cs))
    decreases |gs|
  {
    SameLength(gs, cs);
    if gs != [] {
      assert gs[0] in multiset(cs);
      var k :| 0 <= k < |cs| && cs[k] == gs[0];
      var ws, zs := gs[..0] + gs[0 + 1..], cs[..k] + cs[k + 1..];
      assert multiset(ws) == multiset(zs) by { RemoveAt(gs, 0); RemoveAt(cs, k); }
      NamesPermute(ws, zs);
      NamesPutBack(gs, cs, k);
    }
  }

  lemma NamesPutBack(gs: seq<Group>, cs: seq<Group>, k: nat)
    requires gs != [] && k < |cs| && cs[k] == gs[0]
    requires multiset(Names(gs[..0] + gs[0 + 1..])) == multiset(Names(cs[..k] + cs[k + 1..]))
    ensures multiset(Names(gs)) == multiset(Names(cs))
  {
    NamesRemoveAt(gs, 0);
    NamesRemoveAt(cs, k);
    assert Names(gs)[0] == gs[0].name && Names(cs)[k] == gs[0].name;
    PutBack(multiset(Names(gs)), multiset(Names(cs)), gs[0].name);
  }

  lemma {:induction false} Twice<T>(xs: seq<T>, i: nat, j: nat)
    requires i < j < |xs| && xs[i] == xs[j]
    ensures multiset(xs)[xs[i]] >= 2
  {
    assert xs == xs[..j] + xs[j..];
    assert xs[i] in multiset(xs[..j]) by { assert xs[..j][i] == xs[i]; }
    assert xs[i] in multiset(xs[j..]) by { assert xs[j..][0] == xs[i]; }
  }

  lemma {:induction false} AtMostOnce<T>(xs: seq<T>, x: T)
    requires forall i, j :: 0 <= i < j < |xs| ==> xs[i] != xs[j]
    ensures multiset(xs)[x] <= 1
  {
    if xs != [] {
      var last := |xs| - 1;
      AtMostOnce(xs[..last], x);
      assert xs == xs[..last] + [xs[last]];
      if xs[last] == x { assert x !in xs[..last]; }
    }
  }

  lemma DistinctPermute(gs: seq<Group>, hs: seq<Group>)
    requires DistinctNames(gs) && multiset(Names(gs)) == multiset(Names(hs))
    ensures DistinctNames(hs)
  {
    forall i, j | 0 <= i < j < |hs| ensures hs[i].name != hs[j].name {
      if hs[i].name == hs[j].name {
        Twice(Names(hs), i, j);
        AtMostOnce(Names(gs), hs[i].name);
      }
    }
  }

  lemma ArrangedNames(g: Group, h: Group, cs: seq<Group>)
    requires ChildrenArranged(g, h, cs)
    ensures Names(h.children) == Names(cs)
    ensures multiset(Names(h.children)) == multiset(Names(g.children))
  {
    forall i | 0 <= i < |cs| ensures cs[i].name == h.children[i].name { assert Arranges(cs[i], h.children[i]); }
    NamesPermute(g.children, cs);
  }

  lemma {:induction false} ArrangedSnapshots(g: Group, g': Group, h: Group, h': Group)
    requires SameSnapshot(g, h) && Arranges(g, g') && Arranges(h, h')
    ensures SameSnapshot(g', h')
    decreases g'
  {
    var cs :| ChildrenArranged(g, g', cs);
    var ds :| ChildrenArranged(h, h', ds);
    ArrangedNames(g, g', cs);
    ArrangedNames(h, h', ds);
    DistinctPermute(g.children, g'.children);
    DistinctPermute(h.children, h'.children);
    forall i, j | 0 <= i < |g'.children| && 0 <= j < |h'.children| && g'.children[i].name == h'.children[j].name
      ensures SameSnapshot(g'.children[i], h'.children[j])
    {
      assert Arranges(cs[i], g'.children[i]) && Arranges(ds[j], h'.children[j]);
      assert cs[i] in multiset(g.children) && ds[j] in multiset(h.children);
      ArrangedSnapshots(cs[i], g'.children[i], ds[j], h'.children[j]);
    }
  }

  /** What renderTaskTree may write for a snapshot. */
  ghost predicate IsRendering(format: int -> string, g: Group, out: seq<string>) {
    exists h :: Arranges(g, h) && out == Tree(format, h)
  }

  /** The task tree is canonical: for a fixed snapshot with distinct sibling names the lines
      are the same however tasks and groups were enumerated and ties were broken. */
  lemma RenderingIsCanonical(format: int -> string, g: Group, out: seq<string>, h: Group, other: seq<string>)
    requires SameSnapshot(g, h) && IsRendering(format, g, out) && IsRendering(format, h, other)
    ensures out == other
  {
    var g' :| Arranges(g, g') && out == Tree(format, g');
    var h' :| Arranges(h, h') && other == Tree(format, h');
    ArrangesArranged(g, g');
    ArrangesArranged(h, h');
    ArrangedSnapshots(g, g', h, h');
    TreeIsCanonical(format, g', h');
  }

  // The last marker.

  /** Everything below a prefix starts with it. */
  lemma {:induction false} LinesPrefixed(format: int -> string, g: Group, prefix: string, k: nat, j: nat)
    requires k <= |Entries(g)| && j < |Lines(format, g, prefix, k)|
    ensures prefix <= Lines(format, g, prefix, k)[j]
    decreases g, 1, |Entries(g)| - k
  {
    var es := Entries(g);
    var first := EntryLines(format, g, es[k], prefix, k == |es| - 1);
    if j < |first| { EntryPrefixed(format, g, es[k], prefix, k == |es| - 1, j); }
    else { LinesPrefixed(format, g, prefix, k + 1, j - |first|); }
  }

  /** The header of an entry has its marker; the lines under it are indented. */
  lemma {:induction false} EntryPrefixed(format: int -> string, g: Group, e: Entry, prefix: string,
                                         isLast: bool, j: nat)
    requires e in Entries(g) && j < |EntryLines(format, g, e, prefix, isLast)|
    ensures var line := EntryLines(format, g, e, prefix, isLast)[j];
      && prefix <= line
      && (prefix + LAST <= line <==> isLast && j == 0)
    decreases g, 0, 0
  {
    var line := EntryLines(format, g, e, prefix, isLast)[j];
    if j == 0 {
      var rest := if e.TaskEntry? then Show(format, e.t) else e.g.name;
      assert line == prefix + Marker(isLast) + rest;
      Marked(prefix, Marker(isLast), rest, line);
    } else {
      assert e.g in g.children;
      var pad := if isLast then GAP else BAR;
      LinesPrefixed(format, e.g, prefix + pad, 0, j - 1);
      Marked(prefix, pad, line[|prefix| + 4..], line);
    }
  }

  /** The four characters after the prefix tell. */
  lemma Marked(prefix: string, mark: string, rest: string, line: string)
    requires |mark| == 4 && (mark == LAST || mark[0] != LAST[0])
    requires prefix + mark <= line
    ensures prefix <= line && (prefix + LAST <= line <==> mark == LAST)
  {
    assert line[|prefix|] == (prefix + mark)[|prefix|] == mark[0];
    assert (prefix + LAST)[|prefix|] == LAST[0];
    assert prefix == (prefix + mark)[..|prefix|];
  }

  /** Each non-empty sibling list has exactly one last marker among all the lines written
      for it, and it opens the final entry. */
  lemma {:induction false} OneLastMarker(format: int -> string, g: Group, prefix: string, k: nat) returns (m: nat)
    requires k < |Entries(g)|
    ensures var lines := Lines(format, g, prefix, k);
      && m < |lines|
      && (forall j :: 0 <= j < |lines| ==> (prefix + LAST <= lines[j] <==> j == m))
      && Entries(g)[|Entries(g)| - 1] in Entries(g)
      && lines[m..] == EntryLines(format, g, Entries(g)[|Entries(g)| - 1], prefix, true)
    decreases |Entries(g)| - k
  {
    var es := Entries(g);
    var isLast := k == |es| - 1;
    var first := EntryLines(format, g, es[k], prefix, isLast);
    var lines := Lines(format, g, prefix, k);
    if isLast {
      m := 0;
      forall j | 0 <= j < |lines| ensures prefix + LAST <= lines[j] <==> j == 0 {
        EntryPrefixed(format, g, es[k], prefix, true, j);
      }
    } else {
      var n := OneLastMarker(format, g, prefix, k + 1);
      var rest := Lines(format, g, prefix, k + 1);
      m := |first| + n;
      assert lines[m..] == rest[n..];
      forall j | 0 <= j < |lines| ensures prefix + LAST <= lines[j] <==> j == m {
        if j < |first| { EntryPrefixed(format, g, es[k], prefix, false, j); }
        else { assert lines[j] == rest[j - |first|]; }
      }
    }
  }

  // The code.

  /** The number of leading elements that go before t, or tie with it. */
  method TaskPlace(r: seq<Task>, t: Task) returns (k: nat)
    ensures k <= |r| && (forall j :: 0 <= j < k ==> CompareTasks(r[j], t) <= 0)
    ensures k < |r| ==> CompareTasks(r[k], t) > 0
  {
    k := 0;
    while k < |r| && CompareTasks(r[k], t) <= 0
      invariant k <= |r|
      invariant forall j :: 0 <= j < k ==> CompareTasks(r[j], t) <= 0
    {
      k := k + 1;
    }
  }

  /** slices.SortFunc with sortTasks; nothing but its contract is used. */
  method SortTasks(ts: seq<Task>) returns (r: seq<Task>)
    ensures SortedTasks(r) && multiset(r) == multiset(ts)
  {
    r := [];
    for i := 0 to |ts|
      invariant SortedTasks(r) && multiset(r) == multiset(ts[..i])
    {
      var k := TaskPlace(r, ts[i]);
      InsertTask(r, k, ts[i]);
      InsertCounts(r, k, ts[..i], ts[i]);
      assert ts[..i + 1] == ts[..i] + [ts[i]];
      r := r[..k] + [ts[i]] + r[k..];
    }
    assert ts[..|ts|] == ts;
  }

  lemma InsertCounts<T>(r: seq<T>, k: nat, done: seq<T>, x: T)
    requires k <= |r| && multiset(r) == multiset(done)
    ensures multiset(r[..k] + [x] + r[k..]) == multiset(done + [x])
  {
    assert r == r[..k] + r[k..];
  }

  lemma InsertTask(r: seq<Task>, k: nat, t: Task)
    requires SortedTasks(r) && k <= |r| && forall j :: 0 <= j < k ==> CompareTasks(r[j], t) <= 0
    requires k < |r| ==> CompareTasks(r[k], t) > 0
    ensures SortedTasks(r[..k] + [t] + r[k..])
  {
    forall j | k <= j < |r| ensures CompareTasks(t, r[j]) <= 0 {
      CompareIsPreorder(r[k], t);
      if k < j { CompareTransitive(t, r[k], r[j]); }
    }
  }

  method GroupPlace(r: seq<Group>, g: Group) returns (k: nat)
    ensures k <= |r| && (forall j :: 0 <= j < k ==> CompareStrings(r[j].name, g.name) <= 0)
    ensures k < |r| ==> CompareStrings(r[k].name, g.name) > 0
  {
    k := 0;
    while k < |r| && CompareStrings(r[k].name, g.name) <= 0
      invariant k <= |r|
      invariant forall j :: 0 <= j < k ==> CompareStrings(r[j].name, g.name) <= 0
    {
      k := k + 1;
    }
  }

  /** slices.SortFunc by name. */
  method SortGroups(gs: seq<Group>) returns (r: seq<Group>)
    ensures SortedByName(r) && multiset(r) == multiset(gs)
  {
    r := [];
    for i := 0 to |gs|
      invariant SortedByName(r) && multiset(r) == multiset(gs[..i])
    {
      var k := GroupPlace(r, gs[i]);
      InsertGroup(r, k, gs[i]);
      InsertCounts(r, k, gs[..i], gs[i]);
      assert gs[..i + 1] == gs[..i] + [gs[i]];
      r := r[..k] + [gs[i]] + r[k..];
    }
    assert gs[..|gs|] == gs;
  }

  lemma InsertGroup(r: seq<Group>, k: nat, g: Group)
    requires SortedByName(r) && k <= |r| && forall j :: 0 <= j < k ==> CompareStrings(r[j].name, g.name) <= 0
    requires k < |r| ==> CompareStrings(r[k].name, g.name) > 0
    ensures SortedByName(r[..k] + [g] + r[k..])
  {
    forall j | k <= j < |r| ensures CompareStrings(g.name, r[j].name) <= 0 {
      StringsOpposite(r[k].name, g.name);
      if k < j { StringsTransitive(g.name, r[k].name, r[j].name); }
    }
  }

  /** The lines of a group as an entry of its parent. */
  function GroupLines(format: int -> string, h: Group, prefix: string, isLast: bool): seq<string> {
    [prefix + Marker(isLast) + h.name] + Lines(format, h, prefix + (if isLast then GAP else BAR), 0)
  }

  /** Lines written block by block. */
  function Flat(blocks: seq<seq<string>>): seq<string> {
    if blocks == [] then [] else blocks[0] + Flat(blocks[1..])
  }

  lemma {:induction false} FlatConcat(xs: seq<seq<string>>, ys: seq<seq<string>>)
    ensures Flat(xs + ys) == Flat(xs) + Flat(ys)
  {
    if xs == [] {
      assert xs + ys == ys;
    } else {
      assert (xs + ys)[1..] == xs[1..] + ys;
      FlatConcat(xs[1..], ys);
    }
  }

  lemma FlatAppend(xs: seq<seq<string>>, y: seq<string>)
    ensures Flat(xs + [y]) == Flat(xs) + y
  {
    FlatConcat(xs, [y]);
    assert Flat([y]) == y + Flat([]);
  }

  /** renderTaskTree; h is the tree in the order in which it was written. */
  method RenderTaskTree(format: int -> string, g: Group, prefix: string, isLast: bool, isRoot: bool)
    returns (out: seq<string>, ghost h: Group)
    ensures Arranges(g, h)
    ensures isRoot ==> out == Tree(format, h) && IsRendering(format, g, out)
    ensures !isRoot ==> out == GroupLines(format, h, prefix, isLast)
    decreases g, 1
  {
    var next := "";
    if isRoot {
      out := [g.name];
    } else {
      out := [prefix + Marker(isLast) + g.name];
      next := prefix + (if isLast then GAP else BAR);
    }
    var tasks := SortTasks(g.tasks);
    var children := SortGroups(g.children);
    var total := |tasks| + |children|;
    var first, taskBlocks := RenderTasks(format, tasks, next, total);
    var second, arranged, childBlocks := RenderChildren(format, g, children, next, |tasks|, total);
    h := Group(g.name, tasks, arranged);
    assert ChildrenArranged(g, h, children);
    Assemble(format, h, next, taskBlocks, childBlocks);
    out := out + (first + second);
  }

  ghost predicate TasksWritten(format: int -> string, tasks: seq<Task>, next: string, total: nat,
                               blocks: seq<seq<string>>) {
    && |blocks| == |tasks|
    && forall i :: 0 <= i < |tasks| ==> blocks[i] == [next + Marker(i == total - 1) + Show(format, tasks[i])]
  }

  /** Its first loop. */
  method RenderTasks(format: int -> string, tasks: seq<Task>, next: string, total: nat)
    returns (out: seq<string>, ghost blocks: seq<seq<string>>)
    ensures out == Flat(blocks) && TasksWritten(format, tasks, next, total, blocks)
  {
    out, blocks := [], [];
    for i := 0 to |tasks|
      invariant out == Flat(blocks) && TasksWritten(format, tasks[..i], next, total, blocks)
    {
      var line := next + Marker(i == total - 1) + Show(format, tasks[i]);
      FlatAppend(blocks, [line]);
      out, blocks := out + [line], blocks + [[line]];
      assert tasks[..i + 1] == tasks[..i] + [tasks[i]];
    }
    assert tasks[..|tasks|] == tasks;
  }

  ghost predicate PairsArranged(gs: seq<Group>, hs: seq<Group>) {
    |hs| == |gs| && forall i :: 0 <= i < |gs| ==> Arranges(gs[i], hs[i])
  }

  lemma PairAppend(gs: seq<Group>, hs: seq<Group>, i: nat, h: Group)
    requires i < |gs| && PairsArranged(gs[..i], hs) && Arranges(gs[i], h)
    ensures PairsArranged(gs[..i + 1], hs + [h])
  {
  }

  ghost predicate GroupsWritten(format: int -> string, hs: seq<Group>, next: string, before: nat, total: nat,
                                blocks: seq<seq<string>>) {
    && |blocks| == |hs|
    && forall i :: 0 <= i < |hs| ==> blocks[i] == GroupLines(format, hs[i], next, before + i == total - 1)
  }

  lemma WrittenAppend(format: int -> string, hs: seq<Group>, next: string, before: nat, total: nat,
                      blocks: seq<seq<string>>, h: Group, block: seq<string>)
    requires GroupsWritten(format, hs, next, before, total, blocks)
    requires block == GroupLines(format, h, next, before + |hs| == total - 1)
    ensures GroupsWritten(format, hs + [h], next, before, total, blocks + [block])
  {
  }

  /** Its second loop. */
  method RenderChildren(format: int -> string, ghost g: Group, children: seq<Group>, next: string,
                        before: nat, total: nat)
    returns (out: seq<string>, ghost arranged: seq<Group>, ghost blocks: seq<seq<string>>)
    requires multiset(children) == multiset(g.children) && SortedByName(children)
    ensures PairsArranged(children, arranged) && SortedByName(arranged)
    ensures out == Flat(blocks) && GroupsWritten(format, arranged, next, before, total, blocks)
    decreases g, 0
  {
    out, arranged, blocks := [], [], [];
    for i := 0 to |children|
      invariant |arranged| == i && PairsArranged(children[..i], arranged)
      invariant out == Flat(blocks) && GroupsWritten(format, arranged, next, before, total, blocks)
    {
      assert children[i] in multiset(g.children);
      var lines, h := RenderTaskTree(format, children[i], next, before + i == total - 1, false);
      FlatAppend(blocks, lines);
      WrittenAppend(format, arranged, next, before, total, blocks, h, lines);
      PairAppend(children, arranged, i, h);
      out, arranged, blocks := out + lines, arranged + [h], blocks + [lines];
    }
    assert children[..|children|] == children;
    ArrangedSorted(children, arranged);
  }

  lemma ArrangedSorted(gs: seq<Group>, hs: seq<Group>)
    requires SortedByName(gs) && PairsArranged(gs, hs)
    ensures SortedByName(hs)
  {
    forall i, j | 0 <= i < j < |hs| ensures CompareStrings(hs[i].name, hs[j].name) <= 0 {
      assert Arranges(gs[i], hs[i]) && Arranges(gs[j], hs[j]);
    }
  }

  /** The lines of the entry at k. */
  function Block(format: int -> string, h: Group, next: string, k: nat): seq<string>
    requires k < |Entries(h)|
  {
    EntryLines(format, h, Entries(h)[k], next, k == |Entries(h)| - 1)
  }

  lemma TaskBlock(format: int -> string, h: Group, next: string, k: nat)
    requires k < |h.tasks|
    ensures Block(format, h, next, k) == [next + Marker(k == |Entries(h)| - 1) + Show(format, h.tasks[k])]
  {
    assert Entries(h)[k] == TaskEntry(h.tasks[k]);
  }

  lemma GroupBlock(format: int -> string, h: Group, next: string, i: nat)
    requires i < |h.children|
    ensures |h.tasks| + i < |Entries(h)|
    ensures Block(format, h, next, |h.tasks| + i)
            == GroupLines(format, h.children[i], next, |h.tasks| + i == |Entries(h)| - 1)
  {
    assert Entries(h)[|h.tasks| + i] == GroupEntry(h.children[i]);
  }

  /** What the two loops write are the lines below the arranged group. */
  lemma Assemble(format: int -> string, h: Group, next: string, ts: seq<seq<string>>, gs: seq<seq<string>>)
    requires TasksWritten(format, h.tasks, next, |Entries(h)|, ts)
    requires GroupsWritten(format, h.children, next, |h.tasks|, |Entries(h)|, gs)
    ensures Flat(ts) + Flat(gs) == Lines(format, h, next, 0)
  {
    var blocks := ts + gs;
    forall k | 0 <= k < |blocks| ensures blocks[k] == Block(format, h, next, k) {
      if k < |ts| { TaskBlock(format, h, next, k); } else { GroupBlock(format, h, next, k - |ts|); }
    }
    FlatConcat(ts, gs);
    FlatLines(format, h, next, blocks, 0);
    assert blocks[0..] == blocks;
  }

  lemma {:induction false} FlatLines(format: int -> string, h: Group, next: string, blocks: seq<seq<string>>, k: nat)
    requires |blocks| == |Entries(h)| && k <= |blocks|
    requires forall i :: 0 <= i < |blocks| ==> blocks[i] == Block(format, h, next, i)
    ensures Flat(blocks[k..]) == Lines(format, h, next, k)
    decreases |blocks| - k
  {
    if k < |blocks| {
      FlatLines(format, h, next, blocks, k + 1);
      LinesFrom(format, h, next, k);
      assert blocks[k..][1..] == blocks[k + 1..];
    }
  }

  lemma LinesFrom(format: int -> string, h: Group, next: string, k: nat)
    requires k < |Entries(h)|
    ensures Lines(format, h, next, k) == Block(format, h, next, k) + Lines(format, h, next, k + 1)
  {
    if k == |Entries(h)| - 1 { assert Lines(format, h, next, k + 1) == []; }
  }

  /** What a small tree looks like: tasks before groups, a bar under a group that has later
      siblings, and none under the last. */
  lemma TreeExample(format: int -> string, a: Task, b: Task)
    ensures var g := Group("root", [a], [Group("y", [b], []), Group("z", [], [Group("x", [], [])])]);
      && Arranged(g)
      && Tree(format, g) == ["root",
                             BRANCH + Show(format, a),
                             BRANCH + "y",
                             BAR + LAST + Show(format, b),
                             LAST + "z",
                             GAP + LAST + "x"]
  {
    var x := Group("x", [], []);
    var y, z := Group("y", [b], []), Group("z", [], [x]);
    var g := Group("root", [a], [y, z]);
    assert Arranged(g) by { assert CompareStrings("y", "z") == -1; }
    ExampleEntries(format, a, y, z, g);
    LeafLines(format, y, b);
    NestedLines(format, z, x);
  }

  lemma ExampleEntries(format: int -> string, a: Task, y: Group, z: Group, g: Group)
    requires g == Group("root", [a], [y, z])
    ensures Lines(format, g, "", 0)
            == [BRANCH + Show(format, a)] + ([BRANCH + y.name] + Lines(format, y, BAR, 0)
               + ([LAST + z.name] + Lines(format, z, GAP, 0)))
  {
    assert "" + BRANCH == BRANCH && "" + LAST == LAST && "" + BAR == BAR && "" + GAP == GAP;
    assert Entries(g) == [TaskEntry(a), GroupEntry(y), GroupEntry(z)];
    LinesFrom(format, g, "", 0);
    LinesFrom(format, g, "", 1);
    assert Lines(format, g, "", 2) == [LAST + z.name] + Lines(format, z, GAP, 0);
    assert Block(format, g, "", 0) == [BRANCH + Show(format, a)];
    assert Block(format, g, "", 1) == [BRANCH + y.name] + Lines(format, y, BAR, 0);
  }

  /** The text of a line. */
  lemma LineExample(format: int -> string)
    ensures BRANCH == "\U{251C}\U{2500}\U{2500} " && LAST == "\U{2514}\U{2500}\U{2500} "
    ensures BAR == "\U{2502}   " && GAP == "    "
    ensures Show(format, Task(0, "g", "a", 1, StateRunning)) == "g.a (started " + format(1) + ") (running)"
    ensures Show(format, Task(0, "g", "a", 1, StateSuccess)) == "g.a (started " + format(1) + ") (success)"
    ensures Show(format, Task(0, "g", "a", 1, StateFailed("e"))) == "g.a (started " + format(1) + ") (failed e)"
  {
    assert "g" + "." + "a" + " (started " == "g.a (started ";
    assert "(failed " + "e" + ")" == "(failed e)";
  }

  lemma LeafLines(format: int -> string, y: Group, t: Task)
    requires y.tasks == [t] && y.children == []
    ensures Lines(format, y, BAR, 0) == [BAR + LAST + Show(format, t)]
  {
    assert Entries(y) == [TaskEntry(t)];
    LinesFrom(format, y, BAR, 0);
    assert Lines(format, y, BAR, 1) == [];
  }

  lemma NestedLines(format: int -> string, z: Group, x: Group)
    requires z.tasks == [] && z.children == [x] && x == Group("x", [], [])
    ensures Lines(format, z, GAP, 0) == [GAP + LAST + "x"]
  {
    assert Entries(z) == [GroupEntry(x)] && Entries(x) == [];
    LinesFrom(format, z, GAP, 0);
    assert Lines(format, z, GAP, 1) == [];
    assert Lines(format, x, GAP + GAP, 0) == [];
  }
}
