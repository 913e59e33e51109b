/** The paths along which `Apply` walks, and why they stay valid while the tree grows. */
module StopTreePaths {
  import opened Options
  import opened StateNode
  import opened StopTree
  import opened StopTreeLocal

  /** n is m or an ancestor of m. */
  ghost predicate Above(cells: seq<Cell>, n: NodeId, m: NodeId)
    requires ParentsBelow(cells) && m < |cells|
  {
    n in PathTo(cells, m)
  }

  ghost predicate CellsGrow(cells: seq<Cell>, later: seq<Cell>) {
    && |cells| <= |later|
    && forall i :: 0 <= i < |cells| ==> Grows(cells[i], later[i])
  }

  ghost predicate IsPath(cells: seq<Cell>, path: seq<NodeId>)
    requires ParentsBelow(cells)
  {
    && path != []
    && path[|path| - 1] < |cells|
    && path == PathTo(cells, path[|path| - 1])
  }

  lemma {:induction false} PathFacts(cells: seq<Cell>, n: NodeId)
    requires ParentsBelow(cells) && n < |cells|
    ensures IsChain(cells, PathTo(cells, n), n)
  {
    var parent := cells[n].node.parent;
    if parent.Some? {
      PathFacts(cells, parent.value);
      var prior, path := PathTo(cells, parent.value), PathTo(cells, n);
      assert path[0] == prior[0];
      forall k | 1 <= k < |path| ensures cells[path[k]].node.parent == Some(path[k - 1]) {
        assert prior[k - 1] == path[k - 1];
        if k < |prior| { assert prior[k] == path[k]; }
      }
    }
  }

  /** A root, then each node's child on the way, up to ids no larger than `top`. */
  ghost predicate IsChain(cells: seq<Cell>, path: seq<NodeId>, top: NodeId) {
    && (forall k :: 0 <= k < |path| ==> path[k] <= top && path[k] < |cells|)
    && (path != [] ==> cells[path[0]].node.parent.None?)
    && (forall k :: 1 <= k < |path| ==> cells[path[k]].node.parent == Some(path[k - 1]))
  }

  lemma PathBounded(cells: seq<Cell>, path: seq<NodeId>)
    requires ParentsBelow(cells) && IsPath(cells, path)
    ensures forall x :: x in path ==> x < |cells|
  {
    PathFacts(cells, path[|path| - 1]);
  }

  /** No node occurs twice on a path. */
  lemma {:induction false} PathOnce(cells: seq<Cell>, n: NodeId, x: NodeId)
    requires ParentsBelow(cells) && n < |cells|
    ensures multiset(PathTo(cells, n))[x] == if x in PathTo(cells, n) then 1 else 0
  {
    PathFacts(cells, n);
    var parent := cells[n].node.parent;
    if parent.Some? {
      PathOnce(cells, parent.value, x);
      PathFacts(cells, parent.value);
    }
  }

  lemma {:induction false} PathFrame(cells: seq<Cell>, later: seq<Cell>, n: NodeId)
    requires ParentsBelow(cells) && ParentsBelow(later) && CellsGrow(cells, later) && n < |cells|
    ensures PathTo(later, n) == PathTo(cells, n)
  {
    if cells[n].node.parent.Some? { PathFrame(cells, later, cells[n].node.parent.value); }
  }

  /** Everything above an ancestor is above its descendants. */
  lemma {:induction false} AboveTransitive(cells: seq<Cell>, a: NodeId, b: NodeId, c: NodeId)
    requires ParentsBelow(cells) && b < |cells| && c < |cells|
    requires Above(cells, a, b) && Above(cells, b, c)
    ensures Above(cells, a, c)
  {
    if b != c { AboveTransitive(cells, a, b, cells[c].node.parent.value); }
  }
}
