/**
 `RemoveSubtree` is exact: it removes the live nodes reachable from the root through live nodes, each once, every
 parent before its children in the returned list, and it touches nothing else.
 */
module Subtree {
  import opened Nodes
  import opened GraphModel
  import opened Waiting

  /** A path along child lists, all of whose nodes are live. */
  ghost predicate IsPath(g: Graph, p: seq<NodeId>) {
    && p != []
    && (forall x <- p :: x in g.nodes)
    && (forall i :: 0 < i < |p| ==> p[i] in g.Kids(p[i - 1]))
  }

  ghost predicate Reachable(g: Graph, from: NodeId, to: NodeId) {
    exists p: seq<NodeId> :: IsPath(g, p) && p[0] == from && p[|p| - 1] == to
  }

  /** The list holds each id once, and after all of its children that were live in `g`. */
  ghost predicate ChildrenFirst(g: Graph, gone: seq<NodeId>) {
    && (forall i, j | 0 <= i < j < |gone| :: gone[i] != gone[j])
    && (forall i, c | 0 <= i < |gone| && c in g.Kids(gone[i]) && c in g.nodes :: c in gone[..i])
  }

  /** `g'` is `g` without the nodes of `gone`. */
  ghost predicate Cut(g: Graph, g': Graph, gone: seq<NodeId>) {
    && (forall x <- gone :: x in g.nodes)
    && (forall x :: x in g'.nodes <==> x in g.nodes && x !in gone)
    && (forall x <- g'.nodes :: g'.nodes[x] == g.nodes[x])
    && (forall d :: g'.Kids(d) == if d in gone then [] else g.Kids(d))
    && (forall x <- g'.nodes :: (x in g'.indegree <==> x in g.indegree) && g'.Indegree(x) == g.Indegree(x))
    && g'.ready == g.ready
  }

  /** What removing the tree under `id` leaves. */
  ghost predicate TreeRemoved(g: Graph, id: NodeId, order: Ranking, g': Graph, gone: seq<NodeId>) {
    && Cut(g, g', gone) && ChildrenFirst(g, gone) && DeadBelowZero(g')
    && id !in g'.nodes
    && (id in g.nodes ==> gone != [] && gone[|gone| - 1] == id)
    && (forall x <- gone :: id in order.rank && x in order.rank && order.rank[id] <= order.rank[x])
    && (forall x <- gone :: Reachable(g, id, x))
  }

  /** What removing the trees under `ids`, all ranked above `above`, leaves. */
  ghost predicate TreesRemoved(g: Graph, ids: seq<NodeId>, order: Ranking, above: nat, g': Graph, gone: seq<NodeId>) {
    && Cut(g, g', gone) && ChildrenFirst(g, gone) && DeadBelowZero(g')
    && (forall c <- ids :: c !in g'.nodes)
    && (forall x <- gone :: x in order.rank && above < order.rank[x])
    && (forall x <- gone :: exists c <- ids :: Reachable(g, c, x))
  }

  lemma {:induction false} TreeCut(g: Graph, id: NodeId, order: Ranking)
    requires Ranked(g, order) && DeadBelowZero(g)
    ensures var (g', gone) := RemoveTree(g, id, order); TreeRemoved(g, id, order, g', gone)
    decreases order.Depth(id), 1, 0
  {
    if id in g.nodes {
      var (below, gone) := RemoveTrees(g, g.Kids(id), order, order.rank[id]);
      TreesCut(g, g.Kids(id), order, order.rank[id]);
      RemoveUnlinks(below, id, false);
      RemoveNodeFrame(below, id);
      TreeStep(g, id, order, below, gone, RemoveNode(below, id, false));
    }
  }

  /** Everything below the root is ranked above it. */
  lemma RootStays(g: Graph, id: NodeId, order: Ranking, below: Graph, gone: seq<NodeId>)
    requires id in g.nodes && id in order.rank && Cut(g, below, gone)
    requires forall x <- gone :: x in order.rank && order.rank[id] < order.rank[x]
    ensures id in below.nodes
  {
  }

  lemma TreeStepCut(g: Graph, id: NodeId, below: Graph, gone: seq<NodeId>, g': Graph)
    requires Cut(g, below, gone) && ChildrenFirst(g, gone) && DeadBelowZero(below)
    requires id in below.nodes && (forall c <- g.Kids(id) :: c !in below.nodes)
    requires Unlinked(below, g', id) && g'.ready == below.ready
    ensures Cut(g, g', gone + [id]) && ChildrenFirst(g, gone + [id]) && DeadBelowZero(g')
  {
    hide Unlinked, Cut, ChildrenFirst, DeadBelowZero;
    DeadAfterUnlink(below, g', id);
    RootCut(g, below, g', id, gone);
    RootOrder(g, below, id, gone);
  }

  lemma UnlinkedIsGone(below: Graph, g': Graph, id: NodeId)
    requires Unlinked(below, g', id)
    ensures id !in g'.nodes
  {
  }

  lemma TreeStepRank(g: Graph, id: NodeId, order: Ranking, gone: seq<NodeId>)
    requires Ranked(g, order) && id in g.nodes
    requires forall x <- gone :: x in order.rank && order.rank[id] < order.rank[x]
    ensures id in order.rank && forall x <- gone + [id] :: x in order.rank && order.rank[id] <= order.rank[x]
  {
  }

  lemma TreeStep(g: Graph, id: NodeId, order: Ranking, below: Graph, gone: seq<NodeId>, g': Graph)
    requires Ranked(g, order) && id in g.nodes
    requires TreesRemoved(g, g.Kids(id), order, order.rank[id], below, gone)
    requires Unlinked(below, g', id) && g'.ready == below.ready
    ensures TreeRemoved(g, id, order, g', gone + [id])
  {
    hide Unlinked, Cut, ChildrenFirst, Reachable, DeadBelowZero, Ranked;
    UnlinkedIsGone(below, g', id);
    TreeStepRank(g, id, order, gone);
    RootStays(g, id, order, below, gone);
    TreeStepCut(g, id, below, gone, g');
    RootReaches(g, id, gone);
  }

  lemma {:induction false} TreesCut(g: Graph, ids: seq<NodeId>, order: Ranking, above: nat)
    requires Ranked(g, order) && above < order.top && DeadBelowZero(g)
    requires forall c <- ids :: c in order.rank && above < order.rank[c]
    ensures var (g', gone) := RemoveTrees(g, ids, order, above); TreesRemoved(g, ids, order, above, g', gone)
    decreases order.top - above, 0, |ids|
  {
    if ids != [] {
      var front, last := ids[..|ids| - 1], ids[|ids| - 1];
      assert ids == front + [last];
      var (g1, gone1) := RemoveTrees(g, front, order, above);
      TreesCut(g, front, order, above);
      var (g2, gone2) := RemoveTree(g1, last, order);
      TreeCut(g1, last, order);
      TreesStep(g, front, last, order, above, g1, gone1, g2, gone2);
    }
  }

  lemma ReachTwice(g: Graph, g1: Graph, front: seq<NodeId>, last: NodeId, gone1: seq<NodeId>, gone2: seq<NodeId>)
    requires Cut(g, g1, gone1)
    requires forall x <- gone1 :: exists c <- front :: Reachable(g, c, x)
    requires forall x <- gone2 :: Reachable(g1, last, x)
    ensures forall x <- gone1 + gone2 :: exists c <- front + [last] :: Reachable(g, c, x)
  {
    hide Cut, Reachable;
    forall x | x in gone1 + gone2
      ensures exists c <- front + [last] :: Reachable(g, c, x)
    {
      if x in gone1 {
        var c :| c in front && Reachable(g, c, x);
        assert c in front + [last];
      } else {
        ReachableBefore(g, g1, gone1, last, x);
        assert last in front + [last];
      }
    }
  }

  lemma DeadTwice(front: seq<NodeId>, last: NodeId, g1: Graph, g2: Graph, gone2: seq<NodeId>)
    requires Cut(g1, g2, gone2) && last !in g2.nodes && forall c <- front :: c !in g1.nodes
    ensures forall c <- front + [last] :: c !in g2.nodes
  {
    forall c | c in front + [last]
      ensures c !in g2.nodes
    {
      assert c in front || c == last;
    }
  }

  lemma RankedTwice(order: Ranking, above: nat, last: NodeId, gone1: seq<NodeId>, gone2: seq<NodeId>)
    requires last in order.rank && above < order.rank[last]
    requires forall x <- gone1 :: x in order.rank && above < order.rank[x]
    requires forall x <- gone2 :: x in order.rank && order.rank[last] <= order.rank[x]
    ensures forall x <- gone1 + gone2 :: x in order.rank && above < order.rank[x]
  {
    forall x | x in gone1 + gone2
      ensures x in order.rank && above < order.rank[x]
    {
      assert x in gone1 || x in gone2;
    }
  }

  lemma TreesStep(g: Graph, front: seq<NodeId>, last: NodeId, order: Ranking, above: nat,
                  g1: Graph, gone1: seq<NodeId>, g2: Graph, gone2: seq<NodeId>)
    requires TreesRemoved(g, front, order, above, g1, gone1) && TreeRemoved(g1, last, order, g2, gone2)
    requires last in order.rank && above < order.rank[last]
    ensures TreesRemoved(g, front + [last], order, above, g2, gone1 + gone2)
  {
    hide ChildrenFirst, DeadBelowZero, Reachable, Cut;
    CutTwice(g, g1, g2, gone1, gone2);
    OrderTwice(g, g1, g2, gone1, gone2);
    ReachTwice(g, g1, front, last, gone1, gone2);
    DeadTwice(front, last, g1, g2, gone2);
    RankedTwice(order, above, last, gone1, gone2);
  }

  /** Removing the root, once all its children are dead, changes no counter of a live node. */
  lemma RootCut(g: Graph, below: Graph, g': Graph, id: NodeId, gone: seq<NodeId>)
    requires Cut(g, below, gone)
    requires id in below.nodes && (forall c <- g.Kids(id) :: c !in below.nodes)
    requires Unlinked(below, g', id) && g'.ready == below.ready
    ensures Cut(g, g', gone + [id])
  {
    assert below.Kids(id) == g.Kids(id);
    RootCounts(below, g', id);
    var all := gone + [id];
    assert forall x :: x in all <==> x in gone || x == id;
    assert forall x :: x in g'.nodes <==> x in below.nodes && x != id;
  }

  lemma RootCounts(below: Graph, g': Graph, id: NodeId)
    requires Unlinked(below, g', id) && (forall c <- below.Kids(id) :: c !in below.nodes)
    ensures forall x <- g'.nodes :: (x in g'.indegree <==> x in below.indegree) && g'.Indegree(x) == below.Indegree(x)
  {
    forall x <- g'.nodes
      ensures (x in g'.indegree <==> x in below.indegree) && g'.Indegree(x) == below.Indegree(x)
    {
      assert x !in below.Kids(id);
    }
  }

  /** The root comes after its children, all of which are in the list. */
  lemma RootOrder(g: Graph, below: Graph, id: NodeId, gone: seq<NodeId>)
    requires Cut(g, below, gone) && ChildrenFirst(g, gone)
    requires id in below.nodes && (forall c <- g.Kids(id) :: c !in below.nodes)
    ensures ChildrenFirst(g, gone + [id])
  {
    assert id !in gone && forall c <- g.Kids(id) :: c in g.nodes ==> c in gone;
    hide Cut;
    var all := gone + [id];
    forall i, c | 0 <= i < |all| && c in g.Kids(all[i]) && c in g.nodes
      ensures c in all[..i]
    {
      assert all[..i] == gone[..i];
      assert gone[..|gone|] == gone;
    }
  }

  lemma CutTwice(g: Graph, g1: Graph, g2: Graph, gone1: seq<NodeId>, gone2: seq<NodeId>)
    requires Cut(g, g1, gone1) && Cut(g1, g2, gone2)
    ensures Cut(g, g2, gone1 + gone2)
  {
  }

  lemma OrderTwice(g: Graph, g1: Graph, g2: Graph, gone1: seq<NodeId>, gone2: seq<NodeId>)
    requires Cut(g, g1, gone1) && ChildrenFirst(g, gone1)
    requires Cut(g1, g2, gone2) && ChildrenFirst(g1, gone2)
    ensures ChildrenFirst(g, gone1 + gone2)
  {
    var all := gone1 + gone2;
    forall i, j | 0 <= i < j < |all|
      ensures all[i] != all[j]
    {
      if i < |gone1| <= j {
        assert all[i] in gone1 && all[j] == gone2[j - |gone1|] && all[j] in gone2;
      } else if |gone1| <= i {
        assert all[i] == gone2[i - |gone1|] && all[j] == gone2[j - |gone1|];
      }
    }
    forall i, c | 0 <= i < |all| && c in g.Kids(all[i]) && c in g.nodes
      ensures c in all[..i]
    {
      if i < |gone1| {
        assert all[..i] == gone1[..i];
      } else {
        var k := i - |gone1|;
        assert all[..i] == gone1 + gone2[..k];
        assert g1.Kids(gone2[k]) == g.Kids(gone2[k]);
      }
    }
  }

  lemma ReachableBefore(g: Graph, g1: Graph, gone: seq<NodeId>, from: NodeId, to: NodeId)
    requires Cut(g, g1, gone) && Reachable(g1, from, to)
    ensures Reachable(g, from, to)
  {
    var p :| IsPath(g1, p) && p[0] == from && p[|p| - 1] == to;
    assert IsPath(g, p);
  }

  lemma RootReaches(g: Graph, id: NodeId, gone: seq<NodeId>)
    requires id in g.nodes
    requires forall x <- gone :: exists c <- g.Kids(id) :: Reachable(g, c, x)
    ensures forall x <- gone + [id] :: Reachable(g, id, x)
  {
    assert IsPath(g, [id]);
    forall x <- gone
      ensures Reachable(g, id, x)
    {
      var c :| c in g.Kids(id) && Reachable(g, c, x);
      var p :| IsPath(g, p) && p[0] == c && p[|p| - 1] == x;
      assert IsPath(g, [id] + p);
    }
  }

  /** A list that holds the root and, for each member, its live children, holds all that is reachable. */
  lemma {:induction false} ClosedUnderReach(g: Graph, gone: seq<NodeId>, p: seq<NodeId>)
    requires ChildrenFirst(g, gone) && IsPath(g, p) && p[0] in gone
    ensures p[|p| - 1] in gone
  {
    if |p| > 1 {
      var q := p[..|p| - 1];
      assert forall x <- q :: x in p;
      ClosedUnderReach(g, gone, q);
      var i :| 0 <= i < |gone| && gone[i] == q[|q| - 1];
      assert p[|p| - 1] in g.Kids(p[|p| - 2]) && p[|p| - 1] in g.nodes;
      assert p[|p| - 1] in gone[..i];
    }
  }

  /** The removed ids are exactly the live nodes reachable from the root; the rest of the graph is as it was. */
  lemma RemoveSubtreeExact(g: Graph, id: NodeId, order: Ranking)
    requires Ranked(g, order) && DeadBelowZero(g)
    ensures var (g', removed) := RemoveSubtree(g, id, order);
            && (forall x :: x in removed <==> x in g.nodes && Reachable(g, id, x))
            && Cut(g, g', removed)
            && DeadBelowZero(g')
  {
    var (g', gone) := RemoveTree(g, id, order);
    TreeCut(g, id, order);
    var removed := Reverse(gone);
    forall x
      ensures x in removed <==> x in gone
    {
      if x in gone {
        var i :| 0 <= i < |gone| && gone[i] == x;
        assert removed[|gone| - 1 - i] == x;
      }
    }
    forall x | x in g.nodes && Reachable(g, id, x)
      ensures x in gone
    {
      var p :| IsPath(g, p) && p[0] == id && p[|p| - 1] == x;
      assert p[0] in g.nodes;
      ClosedUnderReach(g, gone, p);
    }
  }

  /** No id twice, and a parent before each of its children in the list. */
  ghost predicate ParentsFirst(g: Graph, removed: seq<NodeId>) {
    && (forall i, j | 0 <= i < j < |removed| :: removed[i] != removed[j])
    && (forall i, j | 0 <= i < |removed| && 0 <= j < |removed| && removed[j] in g.Kids(removed[i]) :: i < j)
  }

  lemma ReversedOrder(g: Graph, gone: seq<NodeId>, removed: seq<NodeId>)
    requires ChildrenFirst(g, gone) && (forall x <- gone :: x in g.nodes)
    requires |removed| == |gone| && (forall i :: 0 <= i < |gone| ==> removed[i] == gone[|gone| - 1 - i])
    ensures ParentsFirst(g, removed)
  {
    forall i, j | 0 <= i < |removed| && 0 <= j < |removed| && removed[j] in g.Kids(removed[i])
      ensures i < j
    {
      var n, m := |gone| - 1 - i, |gone| - 1 - j;
      assert gone[m] in g.Kids(gone[n]) && gone[m] in g.nodes;
      assert gone[m] in gone[..n];
      var k :| 0 <= k < n && gone[k] == gone[m];
      assert k == m;
    }
  }

  /** The returned list starts with the root, repeats nothing, and lists a parent before each child removed with it. */
  lemma RemoveSubtreeOrder(g: Graph, id: NodeId, order: Ranking)
    requires Ranked(g, order) && DeadBelowZero(g)
    ensures var (_, removed) := RemoveSubtree(g, id, order);
            && (id in g.nodes ==> removed != [] && removed[0] == id)
            && (id !in g.nodes ==> removed == [])
            && ParentsFirst(g, removed)
  {
    var (_, gone) := RemoveTree(g, id, order);
    TreeCut(g, id, order);
    ReversedOrder(g, gone, Reverse(gone));
  }

  /** Every removed node but the root was waiting for a removed node. */
  lemma RemovedHasRemovedParent(g: Graph, id: NodeId, order: Ranking, x: NodeId)
    requires Ranked(g, order) && DeadBelowZero(g)
    requires x in RemoveSubtree(g, id, order).1 && x != id
    ensures exists y <- RemoveSubtree(g, id, order).1 :: x in g.Kids(y)
  {
    RemoveSubtreeExact(g, id, order);
    var y := ReachedThrough(g, id, x);
  }

  lemma ReachedThrough(g: Graph, id: NodeId, x: NodeId) returns (y: NodeId)
    requires Reachable(g, id, x) && x != id
    ensures y in g.nodes && Reachable(g, id, y) && x in g.Kids(y)
  {
    var p :| IsPath(g, p) && p[0] == id && p[|p| - 1] == x;
    var q := p[..|p| - 1];
    assert forall z <- q :: z in p;
    assert IsPath(g, q) && q[0] == id;
    y := q[|q| - 1];
    assert y in q && p[|p| - 1] in g.Kids(p[|p| - 2]);
  }

  lemma ReachesChild(g: Graph, id: NodeId, d: NodeId, n: NodeId)
    requires Reachable(g, id, d) && n in g.nodes && n in g.Kids(d)
    ensures Reachable(g, id, n)
  {
    var p :| IsPath(g, p) && p[0] == id && p[|p| - 1] == d;
    assert IsPath(g, p + [n]);
  }

  lemma StampedAfterCut(g: Graph, w: Waits, g': Graph, removed: seq<NodeId>)
    requires Stamped(g, w) && Cut(g, g', removed)
    ensures Stamped(g', CancelWaits(w, Members(removed)))
  {
    forall d, c | c in g'.Kids(d)
      ensures c in w.order.rank && (d in g'.nodes ==> w.order.rank[d] < w.order.rank[c])
    {
      assert c in g.Kids(d);
    }
  }

  lemma CountedAfterCut(g: Graph, w: Waits, g': Graph, w': Waits, removed: seq<NodeId>)
    requires w.stuck.Keys == w.pending.Keys == g.nodes.Keys && Counted(g, w) && Cut(g, g', removed)
    requires forall n, d | n in g'.nodes && d in removed :: n !in g.Kids(d)
    requires w'.stuck.Keys == w'.pending.Keys == g'.nodes.Keys
    requires forall n <- g'.nodes :: w'.pending[n] == w.pending[n] && w'.stuck[n] == w.stuck[n]
    ensures Counted(g', w')
  {
    forall n, d | n in g'.nodes
      ensures multiset(g'.Kids(d))[n] == w'.pending[n][d]
    {
      assert multiset(g.Kids(d))[n] == w.pending[n][d];
      if d in removed {
        assert n !in g.Kids(d);
        assert g'.Kids(d) == [];
      } else {
        assert g'.Kids(d) == g.Kids(d);
      }
    }
    forall n <- g'.nodes
      ensures n in g'.indegree && g'.indegree[n] == Total(w', n)
    {
      assert g.indegree[n] == Total(w, n) && g'.Indegree(n) == g.Indegree(n);
    }
  }

  lemma RefinesAfterCut(g: Graph, w: Waits, g': Graph, removed: seq<NodeId>)
    requires Refines(g, w) && Cut(g, g', removed) && DeadBelowZero(g')
    requires forall n, d | n in g'.nodes && d in removed :: n !in g.Kids(d)
    ensures Refines(g', CancelWaits(w, Members(removed)))
  {
    var w' := CancelWaits(w, Members(removed));
    assert w'.stuck.Keys == w'.pending.Keys == g'.nodes.Keys by {
      forall x
        ensures x in g'.nodes <==> x in g.nodes && x !in removed
      {
      }
    }
    StampedAfterCut(g, w, g', removed);
    CountedAfterCut(g, w, g', w', removed);
  }

  /** Cancelling a subtree keeps the graph in step with what its nodes wait for. */
  lemma CancelRefines(g: Graph, w: Waits, id: NodeId)
    requires Refines(g, w)
    ensures var (g', removed) := RemoveSubtree(g, id, w.order);
            Refines(g', CancelWaits(w, Members(removed)))
  {
    var (g', removed) := RemoveSubtree(g, id, w.order);
    RemoveSubtreeExact(g, id, w.order);
    forall n, d | n in g'.nodes && d in removed
      ensures n !in g.Kids(d)
    {
      if n in g.Kids(d) {
        ReachesChild(g, id, d, n);
        assert false;
      }
    }
    RefinesAfterCut(g, w, g', removed);
  }

  /** No survivor was waiting for a removed node. */
  lemma SurvivorsDoNotWait(g: Graph, w: Waits, id: NodeId)
    requires Refines(g, w)
    ensures var (g', removed) := RemoveSubtree(g, id, w.order);
            forall n, d | n in g'.nodes && n in w.pending && d in removed :: w.pending[n][d] == 0
  {
    var (g', removed) := RemoveSubtree(g, id, w.order);
    RemoveSubtreeExact(g, id, w.order);
    forall n, d | n in g'.nodes && n in w.pending && d in removed
      ensures w.pending[n][d] == 0
    {
      if n in g.Kids(d) {
        ReachesChild(g, id, d, n);
      }
      assert multiset(g.Kids(d))[n] == w.pending[n][d];
    }
  }

  /** The promise of `RemoveSubtree`, in one place. */
  ghost predicate SubtreeRemoved(g: Graph, id: NodeId, g': Graph, removed: seq<NodeId>) {
    && (forall x :: x in removed <==> x in g.nodes && Reachable(g, id, x))
    && (id in g.nodes ==> removed != [] && removed[0] == id)
    && ParentsFirst(g, removed)
    && Cut(g, g', removed)
  }

  lemma RemoveSubtreePromise(g: Graph, w: Waits, id: NodeId)
    requires Refines(g, w)
    ensures SubtreeRemoved(g, id, RemoveSubtree(g, id, w.order).0, RemoveSubtree(g, id, w.order).1)
    ensures Refines(RemoveSubtree(g, id, w.order).0, CancelWaits(w, Members(RemoveSubtree(g, id, w.order).1)))
  {
    RemoveSubtreeExact(g, id, w.order);
    RemoveSubtreeOrder(g, id, w.order);
    CancelRefines(g, w, id);
  }

  /** No removed node but the root was ready, so cancelling costs the entries the root and nothing else. */
  lemma CancelEntry(g: Graph, w: Waits, id: NodeId)
    requires Refines(g, w)
    ensures var (g', _) := RemoveSubtree(g, id, w.order);
            Entry(g') == Entry(g) - {id}
  {
    var (g', removed) := RemoveSubtree(g, id, w.order);
    RemoveSubtreeExact(g, id, w.order);
    RemoveSubtreeOrder(g, id, w.order);
    forall x | x in removed && x != id
      ensures g.Indegree(x) > 0
    {
      RemovedHasRemovedParent(g, id, w.order, x);
      var y :| y in removed && x in g.Kids(y);
      WaitsForParent(g, w, x, y);
    }
    hide Refines, Reachable, RemoveSubtree, ParentsFirst;
    EntryAfterCut(g, g', removed, id);
  }

  lemma EntryAfterCut(g: Graph, g': Graph, removed: seq<NodeId>, id: NodeId)
    requires Cut(g, g', removed) && (id in g.nodes ==> id in removed)
    requires forall x | x in removed && x != id :: g.Indegree(x) > 0
    ensures Entry(g') == Entry(g) - {id}
  {
  }

  lemma WaitsForParent(g: Graph, w: Waits, x: NodeId, y: NodeId)
    requires Refines(g, w) && x in g.nodes && x in g.Kids(y)
    ensures w.pending[x][y] > 0 && g.Indegree(x) > 0
  {
    assert multiset(g.Kids(y))[x] == w.pending[x][y];
    assert w.pending[x][y] <= |w.pending[x]| <= Total(w, x) == g.indegree[x];
  }
}
