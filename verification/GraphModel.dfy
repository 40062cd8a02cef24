/** The dependency graph as a value: what each method of the `Graph` class does to its maps and its ready channel. */
module GraphModel {
  import opened Nodes

  datatype Graph = Graph(
    nodes: map<NodeId, WorkNode>,
    children: map<NodeId, seq<NodeId>>,
    indegree: map<NodeId, int>,
    ready: seq<Option<WorkNode>>)
  {
    /** A missing key reads as the empty list. */
    function Kids(id: NodeId): seq<NodeId> {
      if id in children then children[id] else []
    }

    /** A missing key reads as zero. */
    function Indegree(id: NodeId): int {
      if id in indegree then indegree[id] else 0
    }
  }

  const EMPTY := Graph(map[], map[], map[], [])

  /** A missing key reads as nil. */
  function Lookup(nodes: map<NodeId, WorkNode>, id: NodeId): Option<WorkNode> {
    if id in nodes then Some(nodes[id]) else None
  }

  /** Appends `id` to the child list of every dependency, one occurrence at a time. */
  function Link(children: map<NodeId, seq<NodeId>>, deps: seq<NodeId>, id: NodeId): map<NodeId, seq<NodeId>> {
    if deps == [] then children
    else
      var before := Link(children, deps[..|deps| - 1], id);
      var d := deps[|deps| - 1];
      before[d := (if d in before then before[d] else []) + [id]]
  }

  function Add(g: Graph, node: WorkNode, deps: seq<NodeId>): Graph {
    Graph(
      g.nodes[node.id := node],
      Link(g.children[node.id := []], deps, node.id),
      g.indegree[node.id := |deps|],
      if deps == [] then g.ready + [Some(node)] else g.ready)
  }

  /** Decrements the count of every child in turn, publishing a child the moment its count becomes zero. */
  function Release(g: Graph, kids: seq<NodeId>, emit: bool): Graph {
    if kids == [] then g
    else
      var before := Release(g, kids[..|kids| - 1], emit);
      var c := kids[|kids| - 1];
      var count := before.Indegree(c) - 1;
      before.(indegree := before.indegree[c := count],
              ready := if count == 0 && emit then before.ready + [Lookup(before.nodes, c)] else before.ready)
  }

  function RemoveNode(g: Graph, id: NodeId, emit: bool): Graph {
    var cut := g.(nodes := g.nodes - {id}, indegree := g.indegree - {id});
    var released := Release(cut, cut.Kids(id), emit);
    released.(children := released.children - {id})
  }

  /** A rank for every node, with a bound above all of them. */
  datatype Ranking = Ranking(rank: map<NodeId, nat>, top: nat)
  {
    ghost predicate Valid() {
      forall x <- rank :: rank[x] < top
    }

    /** How far `id` is below the bound. */
    ghost function Depth(id: NodeId): nat
      requires Valid()
    {
      if id in rank then top - rank[id] else 0
    }
  }

  /** Along every edge that leaves a live node the rank strictly increases. */
  ghost predicate Ranked(g: Graph, order: Ranking) {
    && order.Valid()
    && g.nodes.Keys <= order.rank.Keys
    && (forall d, c | d in g.nodes && c in g.Kids(d) :: c in order.rank && order.rank[d] < order.rank[c])
  }

  lemma ReleaseFrame(g: Graph, kids: seq<NodeId>, emit: bool)
    ensures Release(g, kids, emit).nodes == g.nodes
    ensures Release(g, kids, emit).children == g.children
    ensures !emit ==> Release(g, kids, emit).ready == g.ready
  {
  }

  lemma RemoveNodeFrame(g: Graph, id: NodeId)
    ensures var g' := RemoveNode(g, id, false);
            && g'.nodes == g.nodes - {id}
            && g'.ready == g.ready
            && forall d :: g'.Kids(d) == if d == id then [] else g.Kids(d)
  {
    var cut := g.(nodes := g.nodes - {id}, indegree := g.indegree - {id});
    ReleaseFrame(cut, cut.Kids(id), false);
  }

  lemma RankedAfterRemove(g: Graph, id: NodeId, order: Ranking)
    requires Ranked(g, order)
    ensures Ranked(RemoveNode(g, id, false), order)
  {
    RemoveNodeFrame(g, id);
  }

  /** Removes `id` and everything below it, children first. The ranking only bounds the recursion. */
  ghost function RemoveTree(g: Graph, id: NodeId, order: Ranking): (r: (Graph, seq<NodeId>))
    requires Ranked(g, order)
    ensures Ranked(r.0, order)
    decreases order.Depth(id), 1, 0
  {
    if id !in g.nodes then (g, [])
    else
      var (below, gone) := RemoveTrees(g, g.Kids(id), order, order.rank[id]);
      RankedAfterRemove(below, id, order);
      (RemoveNode(below, id, false), gone + [id])
  }

  ghost function RemoveTrees(g: Graph, ids: seq<NodeId>, order: Ranking, above: nat): (r: (Graph, seq<NodeId>))
    requires Ranked(g, order) && above < order.top
    requires forall c <- ids :: c in order.rank && above < order.rank[c]
    ensures Ranked(r.0, order)
    decreases order.top - above, 0, |ids|
  {
    if ids == [] then (g, [])
    else
      var (g1, gone1) := RemoveTrees(g, ids[..|ids| - 1], order, above);
      var (g2, gone2) := RemoveTree(g1, ids[|ids| - 1], order);
      (g2, gone1 + gone2)
  }

  /** One more round of the loop over the children. */
  lemma RemoveTreesNext(g: Graph, ids: seq<NodeId>, i: nat, order: Ranking, above: nat)
    requires Ranked(g, order) && above < order.top && i < |ids|
    requires forall c <- ids :: c in order.rank && above < order.rank[c]
    ensures var (g1, gone1) := RemoveTrees(g, ids[..i], order, above);
            && RemoveTrees(g, ids[..i + 1], order, above).0 == RemoveTree(g1, ids[i], order).0
            && RemoveTrees(g, ids[..i + 1], order, above).1 == gone1 + RemoveTree(g1, ids[i], order).1
  {
    assert ids[..i + 1][..i] == ids[..i];
  }

  function Members(ids: seq<NodeId>): set<NodeId> {
    set x | x in ids
  }

  function Reverse<T>(s: seq<T>): (r: seq<T>)
    ensures |r| == |s|
    ensures forall i :: 0 <= i < |s| ==> r[i] == s[|s| - 1 - i]
  {
    seq(|s|, i requires 0 <= i < |s| => s[|s| - 1 - i])
  }

  /** `RemoveSubtree`: the graph afterwards and the removed ids, root first. */
  ghost function RemoveSubtree(g: Graph, id: NodeId, order: Ranking): (Graph, seq<NodeId>)
    requires Ranked(g, order)
  {
    var (g', gone) := RemoveTree(g, id, order);
    (g', Reverse(gone))
  }
}
