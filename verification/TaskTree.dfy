/**
  The task tree (task_info.go) over a snapshot of the task groups: the comparison of
  tasks, the rendering, and its independence of the order in which the sync.Map of a
  group enumerates tasks and children.
 */
module TaskTree {

  datatype TaskState = StateRunning | StateSuccess | StateFailed(message: string)

  /** Two entries with different ids are different tasks, even if all else agrees. */
  datatype Task = Task(id: nat, group: string, name: string, started: int, state: TaskState)

  datatype Group = Group(name: string, tasks: seq<Task>, children: seq<Group>)

  // Comparisons.

  function CompareInts(a: int, b: int): int {
    if a < b then -1 else if a > b then 1 else 0
  }

  /** `cmp.Compare` on strings: lexicographic. */
  function CompareStrings(a: string, b: string): int {
    if a == [] || b == [] then CompareInts(|a|, |b|)
    else if a[0] != b[0] then CompareInts(a[0] as int, b[0] as int)
    else CompareStrings(a[1..], b[1..])
  }

  function Rank(s: TaskState): int {
    match s case StateRunning => 0 case StateSuccess => 1 case StateFailed(_) => 2
  }

  function CompareStates(a: TaskState, b: TaskState): int {
    if Rank(a) != Rank(b) then CompareInts(Rank(a), Rank(b))
    else if a.StateFailed? then CompareStrings(a.message, b.message)
    else 0
  }

  /** `sortTasks`. */
  function CompareTasks(a: Task, b: Task): int {
    var g := CompareStrings(a.group, b.group);
    var n := CompareStrings(a.name, b.name);
    var t := CompareInts(a.started, b.started);
    if g != 0 then g else if n != 0 then n else if t != 0 then t else CompareStates(a.state, b.state)
  }

  lemma {:induction false} StringsEqual(a: string, b: string)
    ensures CompareStrings(a, b) == 0 <==> a == b
  {
    if a != [] && b != [] && a[0] == b[0] {
      StringsEqual(a[1..], b[1..]);
      assert a == [a[0]] + a[1..] && b == [b[0]] + b[1..];
    } else if a == [] && b == [] {
    }
  }

  lemma {:induction false} StringsOpposite(a: string, b: string)
    ensures CompareStrings(a, b) == -CompareStrings(b, a)
    ensures -1 <= CompareStrings(a, b) <= 1
  {
    if a != [] && b != [] && a[0] == b[0] { StringsOpposite(a[1..], b[1..]); }
  }

  lemma {:induction false} StringsTransitive(a: string, b: string, c: string)
    requires CompareStrings(a, b) <= 0 && CompareStrings(b, c) <= 0
    ensures CompareStrings(a, c) <= 0
  {
    if a != [] && b != [] && c != [] && a[0] == b[0] == c[0] { StringsTransitive(a[1..], b[1..], c[1..]); }
  }

  /** What of a task is compared and shown. */
  predicate Alike(a: Task, b: Task) {
    a == b.(id := a.id)
  }

  lemma StatesEqual(a: TaskState, b: TaskState)
    ensures CompareStates(a, b) == 0 <==> a == b
    ensures CompareStates(a, b) == -CompareStates(b, a)
  {
    if a.StateFailed? && b.StateFailed? {
      StringsEqual(a.message, b.message);
      StringsOpposite(a.message, b.message);
    }
  }

  lemma StatesTransitive(a: TaskState, b: TaskState, c: TaskState)
    requires CompareStates(a, b) <= 0 && CompareStates(b, c) <= 0
    ensures CompareStates(a, c) <= 0
  {
    if a.StateFailed? && b.StateFailed? && c.StateFailed? {
      StringsTransitive(a.message, b.message, c.message);
    }
  }

  /** sortTasks is a total preorder, and its ties agree in everything that is shown. */
  lemma CompareIsPreorder(a: Task, b: Task)
    ensures CompareTasks(a, b) == -CompareTasks(b, a)
    ensures CompareTasks(a, b) == 0 <==> Alike(a, b)
  {
    StringsEqual(a.group, b.group);
    StringsOpposite(a.group, b.group);
    StringsEqual(a.name, b.name);
    StringsOpposite(a.name, b.name);
    StatesEqual(a.state, b.state);
  }

  lemma CompareTransitive(a: Task, b: Task, c: Task)
    requires CompareTasks(a, b) <= 0 && CompareTasks(b, c) <= 0
    ensures CompareTasks(a, c) <= 0
  {
    var g, h := CompareStrings(a.group, b.group), CompareStrings(b.group, c.group);
    StringsEqual(a.group, b.group);
    StringsEqual(b.group, c.group);
    StringsEqual(a.group, c.group);
    if g <= 0 && h <= 0 { StringsTransitive(a.group, b.group, c.group); }
    StringsAntisymmetric(a.group, b.group, c.group);
    StringsEqual(a.name, b.name);
    StringsEqual(b.name, c.name);
    StringsEqual(a.name, c.name);
    if CompareStrings(a.name, b.name) <= 0 && CompareStrings(b.name, c.name) <= 0 {
      StringsTransitive(a.name, b.name, c.name);
      StringsAntisymmetric(a.name, b.name, c.name);
    }
    if CompareStates(a.state, b.state) <= 0 && CompareStates(b.state, c.state) <= 0 {
      StatesTransitive(a.state, b.state, c.state);
    }
  }

  lemma StringsAntisymmetric(a: string, b: string, c: string)
    requires CompareStrings(a, b) <= 0 && CompareStrings(b, c) <= 0
    ensures CompareStrings(a, c) == 0 ==> a == b == c
  {
    StringsEqual(a, c);
    StringsOpposite(a, b);
    StringsEqual(a, b);
  }

  /** The order of strings: a comes before b if it is a proper prefix, or has the smaller
      character where they first differ. */
  ghost predicate Before(a: string, b: string) {
    exists k: nat :: AgreeBelow(a, b, k) && k < |b| && (k == |a| || a[k] < b[k])
  }

  ghost predicate AgreeBelow(a: string, b: string, k: nat) {
    k <= |a| && k <= |b| && forall i :: 0 <= i < k ==> a[i] == b[i]
  }

  lemma {:induction false} Difference(a: string, b: string) returns (k: nat)
    ensures AgreeBelow(a, b, k)
    ensures k < |a| && k < |b| ==> a[k] != b[k]
    ensures CompareStrings(a, b) ==
      if k == |a| || k == |b| then CompareInts(|a| - k, |b| - k) else CompareInts(a[k] as int, b[k] as int)
  {
    if a == [] || b == [] || a[0] != b[0] {
      k := 0;
    } else {
      k := Difference(a[1..], b[1..]);
      forall i | 0 <= i < k + 1 ensures a[i] == b[i] {
        if i > 0 { assert a[1..][i - 1] == b[1..][i - 1]; }
      }
      k := k + 1;
    }
  }

  /** Strings are compared in ascending lexicographic order. */
  lemma StringsAscend(a: string, b: string)
    ensures CompareStrings(a, b) < 0 <==> Before(a, b)
  {
    var k := Difference(a, b);
    if j: nat :| AgreeBelow(a, b, j) && j < |b| && (j == |a| || a[j] < b[j]) {
      assert j >= k && k >= j;
    }
  }

  /** Running before succeeded before failed, and two failed tasks by their messages. */
  ghost predicate StateBefore(a: TaskState, b: TaskState) {
    match a
    case StateRunning => !b.StateRunning?
    case StateSuccess => b.StateFailed?
    case StateFailed(message) => b.StateFailed? && Before(message, b.message)
  }

  /** The order in which tasks are shown: by group, then by name, then the earlier start
      first, then by state. */
  lemma TasksAscend(a: Task, b: Task)
    ensures CompareTasks(a, b) < 0 <==>
      || Before(a.group, b.group)
      || (a.group == b.group && Before(a.name, b.name))
      || (a.group == b.group && a.name == b.name && a.started < b.started)
      || (a.group == b.group && a.name == b.name && a.started == b.started && StateBefore(a.state, b.state))
  {
    StringsAscend(a.group, b.group);
    StringsEqual(a.group, b.group);
    StringsAscend(a.name, b.name);
    StringsEqual(a.name, b.name);
    if a.state.StateFailed? && b.state.StateFailed? { StringsAscend(a.state.message, b.state.message); }
  }

  // Sorting: any permutation that sorts, since slices.SortFunc is not stable.

  ghost predicate SortedTasks(ts: seq<Task>) {
    forall i, j :: 0 <= i < j < |ts| ==> CompareTasks(ts[i], ts[j]) <= 0
  }

  ghost predicate AllAlike(xs: seq<Task>, ys: seq<Task>) {
    |xs| == |ys| && forall i :: 0 <= i < |xs| ==> Alike(xs[i], ys[i])
  }

  function Kind(t: Task): Task {
    t.(id := 0)
  }

  function Kinds(ts: seq<Task>): seq<Task> {
    seq(|ts|, i requires 0 <= i < |ts| => Kind(ts[i]))
  }

  lemma CompareKinds(a: Task, b: Task)
    ensures CompareTasks(Kind(a), Kind(b)) == CompareTasks(a, b)
  {
  }

  lemma RemoveAt<T>(xs: seq<T>, k: nat)
    requires k < |xs|
    ensures multiset(xs[..k] + xs[k + 1..]) == multiset(xs) - multiset{xs[k]}
  {
    assert xs == xs[..k] + [xs[k]] + xs[k + 1..];
  }

  lemma TailCount<T>(xs: seq<T>)
    requires xs != []
    ensures multiset(xs[1..]) == multiset(xs) - multiset{xs[0]}
  {
    assert xs == [xs[0]] + xs[1..];
  }

  lemma Tails<T>(xs: seq<T>, ys: seq<T>)
    requires xs != [] && ys != [] && xs[0] == ys[0] && multiset(xs) == multiset(ys)
    ensures multiset(xs[1..]) == multiset(ys[1..])
  {
    TailCount(xs);
    TailCount(ys);
  }

  lemma SameLength<T>(xs: seq<T>, ys: seq<T>)
    requires multiset(xs) == multiset(ys)
    ensures |xs| == |ys|
  {
    assert |multiset(xs)| == |multiset(ys)|;
  }

  lemma KindsRemoveAt(ys: seq<Task>, k: nat)
    requires k < |ys|
    ensures multiset(Kinds(ys[..k] + ys[k + 1..])) == multiset(Kinds(ys)) - multiset{Kind(ys[k])}
  {
    RemoveAt(Kinds(ys), k);
    assert Kinds(ys)[..k] + Kinds(ys)[k + 1..] == Kinds(ys[..k] + ys[k + 1..]);
  }

  lemma {:induction false} KindsPermute(xs: seq<Task>, ys: seq<Task>)
    requires multiset(xs) == multiset(ys)
    ensures multiset(Kinds(xs)) == multiset(Kinds(ys))
  {
    SameLength(xs, ys);
    if xs != [] {
      assert xs[0] in multiset(ys);
      var k :| 0 <= k < |ys| && ys[k] == xs[0];
      var ws, zs := xs[..0] + xs[0 + 1..], ys[..k] + ys[k + 1..];
      assert multiset(ws) == multiset(zs) by { RemoveAt(xs, 0); RemoveAt(ys, k); }
      KindsPermute(ws, zs);
      KindsPutBack(xs, ys, k);
    }
  }

  lemma KindsPutBack(xs: seq<Task>, ys: seq<Task>, k: nat)
    requires xs != [] && k < |ys| && ys[k] == xs[0]
    requires multiset(Kinds(xs[..0] + xs[0 + 1..])) == multiset(Kinds(ys[..k] + ys[k + 1..]))
    ensures multiset(Kinds(xs)) == multiset(Kinds(ys))
  {
    KindsRemoveAt(xs, 0);
    KindsRemoveAt(ys, k);
    assert Kinds(xs)[0] == Kind(xs[0]) && Kinds(ys)[k] == Kind(xs[0]);
    PutBack(multiset(Kinds(xs)), multiset(Kinds(ys)), Kind(xs[0]));
  }

  lemma PutBack<T>(a: multiset<T>, b: multiset<T>, x: T)
    requires x in a && x in b && a - multiset{x} == b - multiset{x}
    ensures a == b
  {
    assert a == (a - multiset{x}) + multiset{x};
    assert b == (b - multiset{x}) + multiset{x};
  }

  lemma HeadsEqual(xs: seq<Task>, ys: seq<Task>)
    requires SortedTasks(xs) && SortedTasks(ys) && xs != [] && ys != [] && ys[0] in xs && xs[0] in ys
    ensures Alike(xs[0], ys[0])
  {
    var j :| 0 <= j < |ys| && ys[j] == xs[0];
    var k :| 0 <= k < |xs| && xs[k] == ys[0];
    CompareIsPreorder(xs[0], ys[0]);
    CompareIsPreorder(xs[0], xs[0]);
  }

  /** Sequences without ids: sorted permutations of each other are equal. */
  lemma {:induction false} SortedKindsUnique(xs: seq<Task>, ys: seq<Task>)
    requires SortedTasks(xs) && SortedTasks(ys) && multiset(xs) == multiset(ys)
    requires forall i :: 0 <= i < |xs| ==> xs[i].id == 0
    requires forall i :: 0 <= i < |ys| ==> ys[i].id == 0
    ensures xs == ys
  {
    SameLength(xs, ys);
    if xs != [] {
      assert xs[0] in multiset(ys) && ys[0] in multiset(xs);
      HeadsEqual(xs, ys);
      Tails(xs, ys);
      SortedKindsUnique(xs[1..], ys[1..]);
      assert xs == [xs[0]] + xs[1..] && ys == [ys[0]] + ys[1..];
    }
  }

  /** However the tasks were enumerated and ties were broken, sorting gives the same
      tasks up to ties. */
  lemma SortIsCanonical(xs: seq<Task>, ys: seq<Task>)
    requires SortedTasks(xs) && SortedTasks(ys) && multiset(xs) == multiset(ys)
    ensures AllAlike(xs, ys)
  {
    KindsPermute(xs, ys);
    forall i, j | 0 <= i < j < |xs| ensures CompareTasks(Kinds(xs)[i], Kinds(xs)[j]) <= 0 {
      CompareKinds(xs[i], xs[j]);
    }
    forall i, j | 0 <= i < j < |ys| ensures CompareTasks(Kinds(ys)[i], Kinds(ys)[j]) <= 0 {
      CompareKinds(ys[i], ys[j]);
    }
    SortedKindsUnique(Kinds(xs), Kinds(ys));
    forall i | 0 <= i < |xs| ensures Alike(xs[i], ys[i]) {
      assert Kinds(xs)[i] == Kinds(ys)[i];
    }
  }

  // Rendering.

  const BRANCH := "\U{251C}\U{2500}\U{2500} "
  const LAST := "\U{2514}\U{2500}\U{2500} "
  const BAR := "\U{2502}   "
  const GAP := "    "

  function ShowState(s: TaskState): string {
    match s
    case StateRunning => "(running)"
    case StateSuccess => "(success)"
    case StateFailed(message) => "(failed " + message + ")"
  }

  /** `TaskInfo.String`; `format` stands for the RFC 3339 layout of a time. */
  function Show(format: int -> string, t: Task): string {
    t.group + "." + t.name + " (started " + format(t.started) + ") " + ShowState(t.state)
  }

  /** The entries of a sibling list: tasks first, then groups. */
  datatype Entry = TaskEntry(t: Task) | GroupEntry(g: Group)

  function Marker(isLast: bool): string {
    if isLast then LAST else BRANCH
  }

  function Entries(g: Group): seq<Entry> {
    seq(|g.tasks|, i requires 0 <= i < |g.tasks| => TaskEntry(g.tasks[i]))
    + seq(|g.children|, i requires 0 <= i < |g.children| => GroupEntry(g.children[i]))
  }

  /** The lines below a group: every entry but the final one gets a branch marker, the
      final one a last marker. */
  function Lines(format: int -> string, g: Group, prefix: string, k: nat): seq<string>
    requires k <= |Entries(g)|
    decreases g, 1, |Entries(g)| - k
  {
    var es := Entries(g);
    if k == |es| then []
    else if k == |es| - 1 then EntryLines(format, g, es[k], prefix, true)
    else EntryLines(format, g, es[k], prefix, false) + Lines(format, g, prefix, k + 1)
  }

  function EntryLines(format: int -> string, g: Group, e: Entry, prefix: string, isLast: bool): seq<string>
    requires e in Entries(g)
    decreases g, 0, 0
  {
    match e
    case TaskEntry(t) => [prefix + Marker(isLast) + Show(format, t)]
    case GroupEntry(child) =>
      assert child in g.children;
      [prefix + Marker(isLast) + child.name]
      + Lines(format, child, prefix + (if isLast then GAP else BAR), 0)
  }

  /** `TaskTree` on a group whose siblings are in the order shown. */
  function Tree(format: int -> string, g: Group): seq<string> {
    [g.name] + Lines(format, g, "", 0)
  }

  ghost predicate SortedByName(gs: seq<Group>) {
    forall i, j :: 0 <= i < j < |gs| ==> CompareStrings(gs[i].name, gs[j].name) <= 0
  }

  /** Sorted at every level, as renderTaskTree sorts before it writes. */
  ghost predicate Arranged(g: Group) {
    && SortedTasks(g.tasks) && SortedByName(g.children)
    && forall i :: 0 <= i < |g.children| ==> Arranged(g.children[i])
  }

  ghost predicate DistinctNames(gs: seq<Group>) {
    forall i, j :: 0 <= i < j < |gs| ==> gs[i].name != gs[j].name
  }

  function Names(gs: seq<Group>): seq<string> {
    seq(|gs|, i requires 0 <= i < |gs| => gs[i].name)
  }

  /** Two enumerations of one snapshot in which sibling groups have distinct names. */
  ghost predicate SameSnapshot(g: Group, h: Group) {
    && g.name == h.name && multiset(g.tasks) == multiset(h.tasks)
    && DistinctNames(g.children) && DistinctNames(h.children)
    && multiset(Names(g.children)) == multiset(Names(h.children))
    && forall i, j :: 0 <= i < |g.children| && 0 <= j < |h.children| && g.children[i].name == h.children[j].name
         ==> SameSnapshot(g.children[i], h.children[j])
  }

  ghost predicate SortedNames(ns: seq<string>) {
    forall i, j :: 0 <= i < j < |ns| ==> CompareStrings(ns[i], ns[j]) <= 0
  }

  lemma FirstNamesEqual(xs: seq<string>, ys: seq<string>)
    requires SortedNames(xs) && SortedNames(ys) && xs != [] && ys != [] && ys[0] in xs && xs[0] in ys
    ensures xs[0] == ys[0]
  {
    var j :| 0 <= j < |ys| && ys[j] == xs[0];
    var k :| 0 <= k < |xs| && xs[k] == ys[0];
    StringsOpposite(xs[0], ys[0]);
    StringsEqual(xs[0], ys[0]);
  }

  lemma {:induction false} SortedNamesUnique(xs: seq<string>, ys: seq<string>)
    requires SortedNames(xs) && SortedNames(ys) && multiset(xs) == multiset(ys)
    ensures xs == ys
  {
    SameLength(xs, ys);
    if xs != [] {
      assert xs[0] in multiset(ys) && ys[0] in multiset(xs);
      FirstNamesEqual(xs, ys);
      Tails(xs, ys);
      SortedNamesUnique(xs[1..], ys[1..]);
      assert xs == [xs[0]] + xs[1..] && ys == [ys[0]] + ys[1..];
    }
  }

  lemma SameNames(g: Group, h: Group)
    requires SameSnapshot(g, h) && Arranged(g) && Arranged(h)
    ensures Names(g.children) == Names(h.children)
  {
    SortedNamesUnique(Names(g.children), Names(h.children));
  }

  lemma ShowAlike(format: int -> string, a: Task, b: Task)
    requires Alike(a, b)
    ensures Show(format, a) == Show(format, b)
  {
  }

  lemma {:induction false} SameLines(format: int -> string, g: Group, h: Group, prefix: string, k: nat)
    requires SameSnapshot(g, h) && Arranged(g) && Arranged(h) && k <= |Entries(g)|
    ensures |Entries(g)| == |Entries(h)|
    ensures Lines(format, g, prefix, k) == Lines(format, h, prefix, k)
    decreases g, 1, |Entries(g)| - k
  {
    SortIsCanonical(g.tasks, h.tasks);
    SameNames(g, h);
    assert |g.children| == |Names(g.children)| == |h.children|;
    if k < |Entries(g)| {
      SameEntry(format, g, h, prefix, k, k == |Entries(g)| - 1);
      if k < |Entries(g)| - 1 { SameLines(format, g, h, prefix, k + 1); }
    }
  }

  lemma {:induction false} SameEntry(format: int -> string, g: Group, h: Group, prefix: string, k: nat, isLast: bool)
    requires SameSnapshot(g, h) && Arranged(g) && Arranged(h) && k < |Entries(g)|
    requires AllAlike(g.tasks, h.tasks) && Names(g.children) == Names(h.children) && |g.children| == |h.children|
    ensures EntryLines(format, g, Entries(g)[k], prefix, isLast) == EntryLines(format, h, Entries(h)[k], prefix, isLast)
    decreases g, 0, 0
  {
    if k < |g.tasks| {
      assert Entries(g)[k] == TaskEntry(g.tasks[k]) && Entries(h)[k] == TaskEntry(h.tasks[k]);
      assert Alike(g.tasks[k], h.tasks[k]);
      ShowAlike(format, g.tasks[k], h.tasks[k]);
    } else {
      var c := k - |g.tasks|;
      var x, y := g.children[c], h.children[c];
      assert Entries(g)[k] == GroupEntry(x) && Entries(h)[k] == GroupEntry(y);
      assert Names(g.children)[c] == x.name && Names(h.children)[c] == y.name;
      assert SameSnapshot(x, y) && Arranged(x) && Arranged(y);
      assert x in g.children;
      SameLines(format, x, y, prefix + (if isLast then GAP else BAR), 0);
    }
  }

  /** The task tree is canonical: for a fixed snapshot with distinct sibling names the
      rendered lines do not depend on how tasks and groups were enumerated, nor on how
      the sort broke its ties. */
  lemma TreeIsCanonical(format: int -> string, g: Group, h: Group)
    requires SameSnapshot(g, h) && Arranged(g) && Arranged(h)
    ensures Tree(format, g) == Tree(format, h)
  {
    SameLines(format, g, h, "", 0);
  }
}
