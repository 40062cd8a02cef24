/** `turbo_run/graph.go`: the dependency graph as the object its methods update in place. */
module DependencyGraph {
  import opened Nodes
  import M = GraphModel
  import opened Waiting
  import Subtree

  function NodeIds(nodes: seq<WorkNode>): seq<NodeId> {
    if nodes == [] then [] else NodeIds(nodes[..|nodes| - 1]) + [nodes[|nodes| - 1].id]
  }

  lemma NodeIdsMore(nodes: seq<WorkNode>, node: WorkNode)
    ensures multiset(NodeIds(nodes + [node])) == multiset(NodeIds(nodes)) + multiset{node.id}
  {
    assert (nodes + [node])[..|nodes|] == nodes;
  }

  lemma IdsAreKeys(g: M.Graph, w: Waits)
    requires Refines(g, w)
    ensures forall n <- g.nodes :: g.nodes[n].id == n
  {
  }

  lemma RemoveKeepsNodes(g: M.Graph, id: NodeId)
    ensures M.RemoveNode(g, id, true).nodes == g.nodes - {id}
  {
    RemoveUnlinks(g, id, true);
  }

  lemma EntryByCounter(g: M.Graph)
    ensures Entry(g) == set n | n in g.nodes && (if n in g.indegree then g.indegree[n] else 0) == 0
  {
  }

  class Graph {
    var nodes: map<NodeId, WorkNode>
    var children: map<NodeId, seq<NodeId>>
    var indegree: map<NodeId, int>
    var readyNodesChan: seq<Option<WorkNode>>
    const size: int
    /** What the nodes wait for; not part of the program. */
    ghost var waits: Waits

    ghost function State(): M.Graph
      reads this
    {
      M.Graph(nodes, children, indegree, readyNodesChan)
    }

    ghost predicate Valid()
      reads this
    {
      Refines(State(), waits)
    }

    constructor (size: int)
      ensures Valid() && State() == M.EMPTY && waits == NOTHING && this.size == size
    {
      nodes, children, indegree, readyNodesChan := map[], map[], map[], [];
      this.size := size;
      waits := NOTHING;
    }

    method Size() returns (count: nat)
      ensures count == |State().nodes|
    {
      count := |nodes|;
    }

    method Add(node: WorkNode, dependencies: seq<NodeId>)
      requires Valid() && Fresh(waits, node.id, dependencies)
      modifies this
      ensures Valid()
      ensures State() == M.Add(old(State()), node, dependencies)
      ensures waits == AddWaits(old(waits), node.id, dependencies)
      ensures nodes == old(nodes)[node.id := node]
      ensures readyNodesChan == old(readyNodesChan) + if dependencies == [] then [Some(node)] else []
    {
      AddRefines(State(), waits, node, dependencies);
      AddHelper(node, dependencies);
      waits := AddWaits(waits, node.id, dependencies);
    }

    method AddHelper(node: WorkNode, dependencies: seq<NodeId>)
      modifies this
      ensures State() == M.Add(old(State()), node, dependencies)
      ensures waits == old(waits)
    {
      nodes := nodes[node.id := node];
      indegree := indegree[node.id := |dependencies|];
      children := children[node.id := []];
      LinkChildren(dependencies, node.id);
      if |dependencies| == 0 {
        readyNodesChan := readyNodesChan + [Some(node)];
      }
    }

    method LinkChildren(dependencies: seq<NodeId>, id: NodeId)
      modifies this`children
      ensures children == M.Link(old(children), dependencies, id)
    {
      for i := 0 to |dependencies|
        invariant children == M.Link(old(children), dependencies[..i], id)
      {
        var dependency := dependencies[i];
        assert dependencies[..i + 1][..i] == dependencies[..i];
        children := children[dependency := (if dependency in children then children[dependency] else []) + [id]];
      }
      assert dependencies[..|dependencies|] == dependencies;
    }

    /** Removes `id`, live or not, and publishes exactly the nodes that now wait for nothing. */
    method Remove(id: NodeId)
      requires Valid()
      modifies this
      ensures Valid()
      ensures State() == M.RemoveNode(old(State()), id, true)
      ensures waits == RemoveWaits(old(waits), id)
      ensures Ids(readyNodesChan) == old(Ids(readyNodesChan)) + multiset(Entry(State()) - old(Entry(State())))
      ensures nodes == old(nodes) - {id} && AppendsStored(old(readyNodesChan), nodes, readyNodesChan)
    {
      hide Refines, AppendsStored, Ids, Entry, M.RemoveNode, RemoveWaits;
      RemoveKeepsNodes(State(), id);
      RemoveAppends(State(), waits, id);
      RemoveRefines(State(), waits, id);
      RemovePublishes(State(), waits, id);
      RemoveHelper(id, true);
      waits := RemoveWaits(waits, id);
    }

    method RemoveHelper(id: NodeId, emitReady: bool)
      modifies this
      ensures State() == M.RemoveNode(old(State()), id, emitReady)
      ensures waits == old(waits)
    {
      nodes := nodes - {id};
      indegree := indegree - {id};
      ghost var cut := State();
      var kids := if id in children then children[id] else [];
      for i := 0 to |kids|
        invariant State() == M.Release(cut, kids[..i], emitReady) && waits == old(waits)
      {
        var child := kids[i];
        assert kids[..i + 1][..i] == kids[..i];
        indegree := indegree[child := (if child in indegree then indegree[child] else 0) - 1];
        if indegree[child] == 0 && emitReady {
          readyNodesChan := readyNodesChan + [if child in nodes then Some(nodes[child]) else None];
        }
      }
      assert kids[..|kids|] == kids;
      children := children - {id};
    }

    /** Removes exactly the live nodes reachable from `id`, and returns them root first, parents before children. */
    method RemoveSubtree(id: NodeId) returns (removedIDs: seq<NodeId>)
      requires Valid()
      modifies this
      ensures Valid()
      ensures State() == M.RemoveSubtree(old(State()), id, old(waits).order).0
      ensures removedIDs == M.RemoveSubtree(old(State()), id, old(waits).order).1
      ensures waits == CancelWaits(old(waits), M.Members(removedIDs))
      ensures Subtree.SubtreeRemoved(old(State()), id, State(), removedIDs)
    {
      hide Refines, Subtree.SubtreeRemoved, M.Ranked;
      ghost var g, w := State(), waits;
      RefinesRanked(g, w);
      Subtree.RemoveSubtreePromise(g, w, id);
      removedIDs := RemoveAndReverse(id, g, w.order);
      waits := CancelWaits(waits, M.Members(removedIDs));
    }

    method RemoveAndReverse(id: NodeId, ghost g: M.Graph, ghost order: M.Ranking) returns (removedIDs: seq<NodeId>)
      requires State() == g && M.Ranked(g, order)
      modifies this
      ensures State() == M.RemoveSubtree(g, id, order).0
      ensures removedIDs == M.RemoveSubtree(g, id, order).1
      ensures waits == old(waits)
    {
      removedIDs := RemoveSubtreeRecursive(id, [], g, order);
      removedIDs := ReverseInPlace(removedIDs);
    }

    static method ReverseInPlace(ids: seq<NodeId>) returns (reversed: seq<NodeId>)
      ensures reversed == M.Reverse(ids)
    {
      reversed := ids;
      var i, j := 0, |ids| - 1;
      while i < j
        invariant 0 <= i <= j + 2 && i + j == |ids| - 1 && |reversed| == |ids|
        invariant forall k :: 0 <= k < |ids| && (k < i || j < k) ==> reversed[k] == ids[|ids| - 1 - k]
        invariant forall k :: i <= k <= j ==> reversed[k] == ids[k]
      {
        reversed := reversed[i := reversed[j]][j := reversed[i]];
        i, j := i + 1, j - 1;
      }
    }

    method RemoveSubtreeRecursive(id: NodeId, sofar: seq<NodeId>, ghost g: M.Graph, ghost order: M.Ranking)
      returns (removedIDs: seq<NodeId>)
      requires State() == g && M.Ranked(g, order)
      modifies this
      ensures State() == M.RemoveTree(g, id, order).0
      ensures removedIDs == sofar + M.RemoveTree(g, id, order).1
      ensures waits == old(waits)
      decreases order.Depth(id), 1
    {
      removedIDs := sofar;
      if id !in nodes {
        return;
      }
      var childrenToRemove := if id in children then children[id] else [];
      assert childrenToRemove == g.Kids(id);
      removedIDs := RemoveChildren(childrenToRemove, removedIDs, g, order, order.rank[id]);
      RemoveHelper(id, false);
      removedIDs := removedIDs + [id];
    }

    /** The loop over the children of a node ranked `above`. */
    method RemoveChildren(ids: seq<NodeId>, sofar: seq<NodeId>, ghost g: M.Graph, ghost order: M.Ranking, ghost above: nat)
      returns (removedIDs: seq<NodeId>)
      requires State() == g && M.Ranked(g, order) && above < order.top
      requires forall c <- ids :: c in order.rank && above < order.rank[c]
      modifies this
      ensures State() == M.RemoveTrees(g, ids, order, above).0
      ensures removedIDs == sofar + M.RemoveTrees(g, ids, order, above).1
      ensures waits == old(waits)
      decreases order.top - above, 0
    {
      hide M.RemoveTree;
      removedIDs := sofar;
      ghost var below, gone := g, [];
      for i := 0 to |ids|
        invariant waits == old(waits) && State() == below && removedIDs == sofar + gone
        invariant below == M.RemoveTrees(g, ids[..i], order, above).0
        invariant gone == M.RemoveTrees(g, ids[..i], order, above).1
      {
        M.RemoveTreesNext(g, ids, i, order, above);
        ghost var (g1, gone1) := M.RemoveTree(below, ids[i], order);
        removedIDs := RemoveSubtreeRecursive(ids[i], removedIDs, below, order);
        below, gone := g1, gone + gone1;
      }
      assert ids[..|ids|] == ids;
    }

    /** Each live node that waits for nothing, once, in some order. */
    method GetNodesWithNoDependencies() returns (entrypoints: seq<WorkNode>)
      requires Valid()
      ensures multiset(NodeIds(entrypoints)) == multiset(Entry(State()))
      ensures forall node <- entrypoints :: node.id in nodes && node == nodes[node.id]
    {
      IdsAreKeys(State(), waits);
      hide Refines, Entry, NodeIds;
      entrypoints := CollectEntries(nodes, indegree);
      EntryByCounter(State());
    }

    static method CollectEntries(nodes: map<NodeId, WorkNode>, indegree: map<NodeId, int>) returns (entrypoints: seq<WorkNode>)
      requires forall n <- nodes :: nodes[n].id == n
      ensures multiset(NodeIds(entrypoints)) == multiset(set n | n in nodes && (if n in indegree then indegree[n] else 0) == 0)
      ensures forall node <- entrypoints :: node.id in nodes && node == nodes[node.id]
    {
      ghost var entry := set n | n in nodes && (if n in indegree then indegree[n] else 0) == 0;
      entrypoints := [];
      var todo := nodes.Keys;
      assert NodeIds([]) == [] && entry - todo == {};
      hide NodeIds;
      while todo != {}
        invariant todo <= nodes.Keys
        invariant multiset(NodeIds(entrypoints)) == multiset(entry - todo)
        invariant forall node <- entrypoints :: node.id in nodes && node == nodes[node.id]
        decreases todo
      {
        var id :| id in todo;
        var node := nodes[id];
        SetDrop(entry, todo, id);
        if (if node.id in indegree then indegree[node.id] else 0) == 0 {
          NodeIdsMore(entrypoints, node);
          entrypoints := entrypoints + [node];
        }
        todo := todo - {id};
      }
      assert entry - {} == entry;
    }

    static lemma SetDrop(entry: set<NodeId>, todo: set<NodeId>, id: NodeId)
      requires id in todo
      ensures multiset(entry - (todo - {id})) == multiset(entry - todo) + if id in entry then multiset{id} else multiset{}
    {
      assert entry - (todo - {id}) == (entry - todo) + if id in entry then {id} else {};
    }

    /** Empties the maps and the channel; ids stay used. */
    method Clear() returns (removedIDs: seq<NodeId>)
      requires Valid()
      modifies this
      ensures Valid()
      ensures State() == M.EMPTY
      ensures waits.order == old(waits).order && waits.deps == old(waits).deps
      ensures multiset(removedIDs) == multiset(old(nodes).Keys)
    {
      ClearRefines(State(), waits);
      removedIDs := CollectIds(nodes);
      nodes, children, indegree := map[], map[], map[];
      waits := waits.(pending := map[], stuck := map[]);
      DrainReady();
    }

    static method CollectIds(nodes: map<NodeId, WorkNode>) returns (ids: seq<NodeId>)
      ensures multiset(ids) == multiset(nodes.Keys)
    {
      ids := [];
      var todo := nodes.Keys;
      while todo != {}
        invariant multiset(ids) + multiset(todo) == multiset(nodes.Keys)
        decreases todo
      {
        var id :| id in todo;
        todo := todo - {id};
        ids := ids + [id];
      }
    }

    method DrainReady()
      modifies this`readyNodesChan
      ensures readyNodesChan == []
    {
      while readyNodesChan != []
        decreases |readyNodesChan|
      {
        readyNodesChan := readyNodesChan[1..];
      }
    }
  }
}
