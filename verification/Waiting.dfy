/**
 What the dependency graph is for: every live node waits for a multiset of dependencies. The counters and child lists
 of the graph refine this view under every operation, whatever the order in which nodes are pushed.
 */
module Waiting {
  import opened Nodes
  import opened GraphModel

  /**
   `pending[n]` are the dependencies of the live node `n` whose removal will still release it; `stuck[n]` counts the
   dependencies that can no longer do so, because they were pushed after `n` and their child list was reset. `deps`
   remembers the dependencies of every node ever added, and `order` ranks those nodes by when they were added.
   */
  datatype Waits = Waits(
    pending: map<NodeId, multiset<NodeId>>,
    stuck: map<NodeId, nat>,
    deps: map<NodeId, seq<NodeId>>,
    order: Ranking)

  const NOTHING := Waits(map[], map[], map[], Ranking(map[], 0))

  /** What the caller of `Add` has to respect: ids are never reused and no node depends on itself. */
  ghost predicate Fresh(w: Waits, id: NodeId, deps: seq<NodeId>) {
    id !in w.order.rank && id !in deps
  }

  function AddWaits(w: Waits, id: NodeId, deps: seq<NodeId>): Waits
    requires w.stuck.Keys == w.pending.Keys
  {
    Waits(
      (map n | n in w.pending :: w.pending[n][id := 0])[id := multiset(deps)],
      (map n | n in w.pending :: w.stuck[n] + w.pending[n][id])[id := 0],
      w.deps[id := deps],
      Ranking(w.order.rank[id := w.order.top], w.order.top + 1))
  }

  function RemoveWaits(w: Waits, id: NodeId): Waits {
    w.(pending := map n | n in w.pending && n != id :: w.pending[n][id := 0], stuck := w.stuck - {id})
  }

  function CancelWaits(w: Waits, gone: set<NodeId>): Waits {
    w.(pending := w.pending - gone, stuck := w.stuck - gone)
  }

  /** Everything `n` still waits for. */
  function Total(w: Waits, n: NodeId): nat
    requires n in w.pending && n in w.stuck
  {
    |w.pending[n]| + w.stuck[n]
  }

  /** The dead: their stored or default counter never is positive, so no decrement can make it zero. */
  ghost predicate DeadBelowZero(g: Graph) {
    forall x :: x !in g.nodes ==> g.Indegree(x) <= 0
  }

  /** A live node is in the child list of `d` as often as it waits for `d`. */
  ghost predicate ListsAgree(g: Graph, w: Waits)
    requires w.pending.Keys == g.nodes.Keys
  {
    forall n <- g.nodes, d :: multiset(g.Kids(d))[n] == w.pending[n][d]
  }

  /** The counter of a live node is the number of things it waits for. */
  ghost predicate TotalsAgree(g: Graph, w: Waits)
    requires w.stuck.Keys == w.pending.Keys == g.nodes.Keys
  {
    forall n <- g.nodes :: n in g.indegree && g.indegree[n] == Total(w, n)
  }

  ghost predicate Counted(g: Graph, w: Waits)
    requires w.stuck.Keys == w.pending.Keys == g.nodes.Keys
  {
    ListsAgree(g, w) && TotalsAgree(g, w)
  }

  /** The child lists only name nodes that were added, and a live node's children were added after it. */
  ghost predicate Stamped(g: Graph, w: Waits) {
    && Ranked(g, w.order)
    && w.deps.Keys == w.order.rank.Keys
    && (forall d, c | c in g.Kids(d) :: c in w.order.rank)
  }

  ghost predicate Refines(g: Graph, w: Waits) {
    && w.stuck.Keys == w.pending.Keys == g.nodes.Keys
    && (forall n <- g.nodes :: g.nodes[n].id == n)
    && Stamped(g, w)
    && DeadBelowZero(g)
    && Counted(g, w)
  }

  /** The live nodes that wait for nothing. */
  function Entry(g: Graph): (r: set<NodeId>) {
    set n | n in g.nodes && g.Indegree(n) == 0
  }

  /** Nothing nil was ever put on the ready channel. */
  predicate NoNil(ready: seq<Option<WorkNode>>) {
    forall o <- ready :: o.Some?
  }

  /** The ids on the ready channel. */
  function Ids(ready: seq<Option<WorkNode>>): multiset<NodeId> {
    if ready == [] then multiset{}
    else
      var last := ready[|ready| - 1];
      Ids(ready[..|ready| - 1]) + (if last.Some? then multiset{last.value.id} else multiset{})
  }

  lemma IdsAppend(ready: seq<Option<WorkNode>>, o: Option<WorkNode>)
    ensures Ids(ready + [o]) == Ids(ready) + (if o.Some? then multiset{o.value.id} else multiset{})
  {
    assert (ready + [o])[..|ready|] == ready;
  }

  lemma {:induction false} IdsPop(ready: seq<Option<WorkNode>>)
    requires ready != []
    ensures Ids(ready) == Ids(ready[1..]) + (if ready[0].Some? then multiset{ready[0].value.id} else multiset{})
  {
    if |ready| > 1 {
      IdsPop(ready[..|ready| - 1]);
      assert ready[..|ready| - 1][1..] == ready[1..][..|ready| - 2];
    } else {
      assert ready[..0] == [] == ready[1..];
    }
  }

  // ---------------------------------------------------------------- the loops

  lemma {:induction false} LinkCounts(children: map<NodeId, seq<NodeId>>, deps: seq<NodeId>, id: NodeId, d: NodeId)
    ensures var before := if d in children then children[d] else [];
            var linked := Link(children, deps, id);
            var after := if d in linked then linked[d] else [];
            && multiset(after)[id] == multiset(before)[id] + multiset(deps)[d]
            && (forall n | n != id :: multiset(after)[n] == multiset(before)[n])
            && (forall c <- after :: c in before || (c == id && d in deps))
  {
    if deps != [] {
      var front, last := deps[..|deps| - 1], deps[|deps| - 1];
      assert deps == front + [last];
      LinkCounts(children, front, id, d);
    }
  }

  lemma {:induction false} ReleaseCounts(g: Graph, kids: seq<NodeId>, emit: bool)
    ensures forall x :: Release(g, kids, emit).Indegree(x) == g.Indegree(x) - multiset(kids)[x]
    ensures forall x :: x in Release(g, kids, emit).indegree <==> x in g.indegree || x in kids
  {
    if kids != [] {
      var front, last := kids[..|kids| - 1], kids[|kids| - 1];
      assert kids == front + [last];
      ReleaseCounts(g, front, emit);
    }
  }

  /** A child is published exactly when the loop takes its positive count to zero, once, and never as nil. */
  lemma {:induction false} ReleasePublishes(g: Graph, kids: seq<NodeId>)
    requires DeadBelowZero(g) && (forall n <- g.nodes :: g.nodes[n].id == n)
    ensures g.ready <= Release(g, kids, true).ready
    ensures NoNil(g.ready) ==> NoNil(Release(g, kids, true).ready)
    ensures forall x :: Ids(Release(g, kids, true).ready)[x] ==
                        Ids(g.ready)[x] + if 1 <= g.Indegree(x) <= multiset(kids)[x] then 1 else 0
  {
    if kids != [] {
      var front, last := kids[..|kids| - 1], kids[|kids| - 1];
      assert kids == front + [last];
      ReleasePublishes(g, front);
      ReleaseCounts(g, front, true);
      ReleaseFrame(g, front, true);
      var before := Release(g, front, true);
      IdsAppend(before.ready, Lookup(before.nodes, last));
    }
  }

  // ---------------------------------------------------------------- Add

  /** How `Add` changes the child lists: the new node's is reset, its dependencies' grow by one per occurrence. */
  ghost predicate Linked(g: Graph, g': Graph, id: NodeId, deps: seq<NodeId>) {
    && (forall d :: multiset(g'.Kids(d))[id] == multiset(deps)[d])
    && (forall d, n | n != id :: multiset(g'.Kids(d))[n] == if d == id then 0 else multiset(g.Kids(d))[n])
  }

  lemma AddLinked(g: Graph, w: Waits, node: WorkNode, deps: seq<NodeId>)
    requires Stamped(g, w) && Fresh(w, node.id, deps)
    ensures Linked(g, Add(g, node, deps), node.id, deps)
  {
    forall d
      ensures var kids := Add(g, node, deps).Kids(d);
              && multiset(kids)[node.id] == multiset(deps)[d]
              && (forall n | n != node.id :: multiset(kids)[n] == if d == node.id then 0 else multiset(g.Kids(d))[n])
    {
      LinkCounts(g.children[node.id := []], deps, node.id, d);
      assert node.id !in g.Kids(d);
    }
  }

  lemma KidsAfterLink(g: Graph, g': Graph, id: NodeId, deps: seq<NodeId>)
    requires Linked(g, g', id, deps) && id !in deps
    ensures forall d, c | c in g'.Kids(d) :: d != id && (c == id || c in g.Kids(d))
  {
    forall d, c | c in g'.Kids(d)
      ensures d != id && (c == id || c in g.Kids(d))
    {
      assert multiset(g'.Kids(d))[c] > 0;
    }
  }

  lemma StampedAfterLink(g: Graph, w: Waits, g': Graph, w': Waits, id: NodeId, deps: seq<NodeId>)
    requires Stamped(g, w) && Fresh(w, id, deps)
    requires g'.nodes.Keys == g.nodes.Keys + {id}
    requires w'.order == Ranking(w.order.rank[id := w.order.top], w.order.top + 1) && w'.deps == w.deps[id := deps]
    requires forall d, c | c in g'.Kids(d) :: d != id && (c == id || c in g.Kids(d))
    ensures Stamped(g', w')
  {
  }

  lemma AddKeys(w: Waits, id: NodeId, deps: seq<NodeId>)
    requires w.stuck.Keys == w.pending.Keys
    ensures AddWaits(w, id, deps).stuck.Keys == AddWaits(w, id, deps).pending.Keys == w.pending.Keys + {id}
  {
  }

  /** After `Add`, what `n` waits for of `d`. */
  lemma PendingAfterLink(w: Waits, id: NodeId, deps: seq<NodeId>, n: NodeId)
    requires w.stuck.Keys == w.pending.Keys && (n in w.pending || n == id)
    ensures var w' := AddWaits(w, id, deps);
            && n in w'.pending && n in w'.stuck
            && (forall d :: w'.pending[n][d] == if n == id then multiset(deps)[d] else if d == id then 0 else w.pending[n][d])
            && Total(w', n) == if n == id then |deps| else Total(w, n)
  {
    assert |multiset(deps)| == |deps|;
  }

  lemma KidsAgreeAfterLink(g: Graph, w: Waits, g': Graph, id: NodeId, deps: seq<NodeId>, n: NodeId, d: NodeId)
    requires w.stuck.Keys == w.pending.Keys && (n in w.pending || n == id) && id !in w.pending && id !in deps
    requires n in w.pending ==> multiset(g.Kids(d))[n] == w.pending[n][d]
    requires Linked(g, g', id, deps)
    ensures n in AddWaits(w, id, deps).pending && multiset(g'.Kids(d))[n] == AddWaits(w, id, deps).pending[n][d]
  {
    hide AddWaits;
    PendingAfterLink(w, id, deps, n);
  }

  lemma ListsAfterLink(g: Graph, w: Waits, g': Graph, w': Waits, id: NodeId, deps: seq<NodeId>)
    requires w.stuck.Keys == w.pending.Keys == g.nodes.Keys && id !in g.nodes && id !in deps
    requires ListsAgree(g, w) && Linked(g, g', id, deps)
    requires g'.nodes.Keys == g.nodes.Keys + {id} == w'.pending.Keys && w' == AddWaits(w, id, deps)
    ensures ListsAgree(g', w')
  {
    hide AddWaits, Linked;
    forall n, d | n in g'.nodes
      ensures multiset(g'.Kids(d))[n] == w'.pending[n][d]
    {
      KidsAgreeAfterLink(g, w, g', id, deps, n, d);
    }
  }

  lemma TotalsAfterLink(g: Graph, w: Waits, g': Graph, w': Waits, id: NodeId, deps: seq<NodeId>)
    requires w.stuck.Keys == w.pending.Keys == g.nodes.Keys && id !in g.nodes && TotalsAgree(g, w)
    requires g'.nodes.Keys == g.nodes.Keys + {id} && g'.indegree == g.indegree[id := |deps|]
    requires g'.nodes.Keys == w'.pending.Keys == w'.stuck.Keys && w' == AddWaits(w, id, deps)
    ensures TotalsAgree(g', w')
  {
    hide AddWaits, Total;
    forall n <- g'.nodes
      ensures n in g'.indegree && g'.indegree[n] == Total(w', n)
    {
      PendingAfterLink(w, id, deps, n);
    }
  }

  lemma CountedAfterLink(g: Graph, w: Waits, g': Graph, id: NodeId, deps: seq<NodeId>)
    requires w.stuck.Keys == w.pending.Keys == g.nodes.Keys && id !in g.nodes && id !in deps
    requires Counted(g, w) && Linked(g, g', id, deps)
    requires g'.nodes.Keys == g.nodes.Keys + {id} && g'.indegree == g.indegree[id := |deps|]
    ensures AddWaits(w, id, deps).stuck.Keys == AddWaits(w, id, deps).pending.Keys == g'.nodes.Keys
    ensures Counted(g', AddWaits(w, id, deps))
  {
    hide AddWaits, Linked, ListsAgree, TotalsAgree;
    AddKeys(w, id, deps);
    ListsAfterLink(g, w, g', AddWaits(w, id, deps), id, deps);
    TotalsAfterLink(g, w, g', AddWaits(w, id, deps), id, deps);
  }

  lemma RefinesAfterLink(g: Graph, w: Waits, g': Graph, node: WorkNode, deps: seq<NodeId>)
    requires Refines(g, w) && Fresh(w, node.id, deps) && Linked(g, g', node.id, deps)
    requires g'.nodes == g.nodes[node.id := node] && g'.indegree == g.indegree[node.id := |deps|]
    ensures Refines(g', AddWaits(w, node.id, deps))
  {
    hide Linked, Counted, Stamped, DeadBelowZero;
    assert g'.nodes.Keys == g.nodes.Keys + {node.id} && node.id !in g.nodes by {
      NotLive(g, w, node.id);
    }
    KidsAfterLink(g, g', node.id, deps);
    StampedAfterLink(g, w, g', AddWaits(w, node.id, deps), node.id, deps);
    CountedAfterLink(g, w, g', node.id, deps);
    DeadAfterLink(g, g', node.id, |deps|);
  }

  lemma NotLive(g: Graph, w: Waits, id: NodeId)
    requires Stamped(g, w) && id !in w.order.rank
    ensures id !in g.nodes
  {
  }

  lemma AddRefines(g: Graph, w: Waits, node: WorkNode, deps: seq<NodeId>)
    requires Refines(g, w) && Fresh(w, node.id, deps)
    ensures Refines(Add(g, node, deps), AddWaits(w, node.id, deps))
  {
    AddLinked(g, w, node, deps);
    RefinesAfterLink(g, w, Add(g, node, deps), node, deps);
  }

  lemma DeadAfterLink(g: Graph, g': Graph, id: NodeId, count: nat)
    requires DeadBelowZero(g)
    requires g'.nodes.Keys == g.nodes.Keys + {id} && g'.indegree == g.indegree[id := count]
    ensures DeadBelowZero(g')
  {
    forall x | x !in g'.nodes
      ensures g'.Indegree(x) <= 0
    {
      assert g.Indegree(x) <= 0;
    }
  }

  /** `Add` publishes the node at once if and only if it was given no dependency. */
  lemma AddPublishes(g: Graph, node: WorkNode, deps: seq<NodeId>)
    requires node.id !in g.nodes
    ensures var g' := Add(g, node, deps);
            && (NoNil(g.ready) ==> NoNil(g'.ready))
            && Ids(g'.ready) == Ids(g.ready) + multiset(Entry(g') - Entry(g))
            && Entry(g') == Entry(g) + if deps == [] then {node.id} else {}
  {
    var g' := Add(g, node, deps);
    IdsAppend(g.ready, Some(node));
    var entered := if deps == [] then {node.id} else {};
    assert Entry(g') == Entry(g) + entered;
    assert Entry(g') - Entry(g) == entered;
  }

  // ---------------------------------------------------------------- Remove

  /** What removing `id` does to the maps, for a live id or any other. */
  ghost predicate Unlinked(g: Graph, g': Graph, id: NodeId) {
    && g'.nodes == g.nodes - {id}
    && (forall d :: g'.Kids(d) == if d == id then [] else g.Kids(d))
    && (forall x :: x in g'.indegree <==> (x in g.indegree && x != id) || x in g.Kids(id))
    && (forall x :: g'.Indegree(x) == (if x == id then 0 else g.Indegree(x)) - multiset(g.Kids(id))[x])
  }

  lemma RemoveUnlinks(g: Graph, id: NodeId, emit: bool)
    ensures Unlinked(g, RemoveNode(g, id, emit), id)
  {
    var cut := g.(nodes := g.nodes - {id}, indegree := g.indegree - {id});
    ReleaseCounts(cut, g.Kids(id), emit);
    ReleaseFrame(cut, g.Kids(id), emit);
  }

  lemma RemoveKeys(w: Waits, id: NodeId)
    requires w.stuck.Keys == w.pending.Keys
    ensures RemoveWaits(w, id).stuck.Keys == RemoveWaits(w, id).pending.Keys == w.pending.Keys - {id}
  {
  }

  /** After `Remove`, what `n` waits for of `d`. */
  lemma PendingAfterUnlink(w: Waits, id: NodeId, n: NodeId)
    requires w.stuck.Keys == w.pending.Keys && n in w.pending && n != id
    ensures var w' := RemoveWaits(w, id);
            && n in w'.pending && n in w'.stuck
            && (forall d :: w'.pending[n][d] == if d == id then 0 else w.pending[n][d])
            && Total(w', n) == Total(w, n) - w.pending[n][id]
  {
  }

  lemma CountedAfterUnlink(g: Graph, w: Waits, g': Graph, id: NodeId)
    requires w.stuck.Keys == w.pending.Keys == g.nodes.Keys
    requires Counted(g, w) && Unlinked(g, g', id)
    ensures RemoveWaits(w, id).stuck.Keys == RemoveWaits(w, id).pending.Keys == g'.nodes.Keys
    ensures Counted(g', RemoveWaits(w, id))
  {
    RemoveKeys(w, id);
    var w' := RemoveWaits(w, id);
    hide RemoveWaits, Total;
    forall n, d | n in g'.nodes
      ensures multiset(g'.Kids(d))[n] == w'.pending[n][d]
    {
      PendingAfterUnlink(w, id, n);
      assert multiset(g.Kids(d))[n] == w.pending[n][d];
    }
    forall n <- g'.nodes
      ensures n in g'.indegree && g'.indegree[n] == Total(w', n)
    {
      PendingAfterUnlink(w, id, n);
      assert multiset(g.Kids(id))[n] == w.pending[n][id];
      assert g'.Indegree(n) == g.Indegree(n) - w.pending[n][id];
    }
  }

  lemma DeadAfterUnlink(g: Graph, g': Graph, id: NodeId)
    requires DeadBelowZero(g) && Unlinked(g, g', id)
    ensures DeadBelowZero(g')
  {
    forall x | x !in g'.nodes
      ensures g'.Indegree(x) <= 0
    {
      assert x != id ==> g.Indegree(x) <= 0;
    }
  }

  lemma RemoveRefines(g: Graph, w: Waits, id: NodeId)
    requires Refines(g, w)
    ensures Refines(RemoveNode(g, id, true), RemoveWaits(w, id))
  {
    var g' := RemoveNode(g, id, true);
    RemoveUnlinks(g, id, true);
    StampedAfterUnlink(g, w, g', id);
    CountedAfterUnlink(g, w, g', id);
    DeadAfterUnlink(g, g', id);
  }

  lemma StampedAfterUnlink(g: Graph, w: Waits, g': Graph, id: NodeId)
    requires Stamped(g, w) && Unlinked(g, g', id)
    ensures Stamped(g', RemoveWaits(w, id))
  {
    forall d, c | c in g'.Kids(d)
      ensures c in w.order.rank && (d in g'.nodes ==> w.order.rank[d] < w.order.rank[c])
    {
      assert c in g.Kids(d);
    }
  }

  /** Of the other nodes, `Remove` makes exactly those an entry whose whole count it takes away. */
  lemma EntryAfterUnlink(g: Graph, w: Waits, g': Graph, id: NodeId, x: NodeId)
    requires w.stuck.Keys == w.pending.Keys == g.nodes.Keys
    requires Counted(g, w) && DeadBelowZero(g) && Unlinked(g, g', id)
    ensures x in Entry(g') <==> x != id && (x in Entry(g) || 1 <= g.Indegree(x) <= multiset(g.Kids(id))[x])
  {
    assert g'.Indegree(x) == (if x == id then 0 else g.Indegree(x)) - multiset(g.Kids(id))[x];
    if x in g.nodes {
      assert multiset(g.Kids(id))[x] == w.pending[x][id];
      assert w.pending[x][id] <= |w.pending[x]| <= Total(w, x) == g.indegree[x];
    } else {
      assert g.Indegree(x) <= 0;
    }
  }

  lemma RemoveReady(g: Graph, id: NodeId)
    requires DeadBelowZero(g) && (forall n <- g.nodes :: g.nodes[n].id == n)
    ensures var g' := RemoveNode(g, id, true);
            && g.ready <= g'.ready
            && (NoNil(g.ready) ==> NoNil(g'.ready))
            && forall x :: Ids(g'.ready)[x] ==
                        Ids(g.ready)[x] + if x != id && 1 <= g.Indegree(x) <= multiset(g.Kids(id))[x] then 1 else 0
  {
    var cut := g.(nodes := g.nodes - {id}, indegree := g.indegree - {id});
    assert cut.Indegree(id) == 0 && (forall x | x != id :: cut.Indegree(x) == g.Indegree(x));
    ReleasePublishes(cut, g.Kids(id));
  }

  lemma EntriesAfterUnlink(g: Graph, w: Waits, g': Graph, id: NodeId)
    requires w.stuck.Keys == w.pending.Keys == g.nodes.Keys
    requires Counted(g, w) && DeadBelowZero(g) && Unlinked(g, g', id)
    ensures Entry(g) - {id} <= Entry(g') && id !in Entry(g')
    ensures forall x :: x in Entry(g') - Entry(g) <==> x != id && 1 <= g.Indegree(x) <= multiset(g.Kids(id))[x]
  {
    forall x
      ensures x in Entry(g') <==> x != id && (x in Entry(g) || 1 <= g.Indegree(x) <= multiset(g.Kids(id))[x])
    {
      EntryAfterUnlink(g, w, g', id, x);
    }
  }

  /** `Remove` publishes exactly the nodes that now wait for nothing, each once and never as nil. */
  lemma RemovePublishes(g: Graph, w: Waits, id: NodeId)
    requires Refines(g, w)
    ensures var g' := RemoveNode(g, id, true);
            && g.ready <= g'.ready
            && (NoNil(g.ready) ==> NoNil(g'.ready))
            && Ids(g'.ready) == Ids(g.ready) + multiset(Entry(g') - Entry(g))
            && Entry(g) - {id} <= Entry(g')
            && id !in Entry(g')
  {
    RemoveReady(g, id);
    RemoveUnlinks(g, id, true);
    EntriesAfterUnlink(g, w, RemoveNode(g, id, true), id);
  }

  // ---------------------------------------------------------------- the nodes themselves

  /** The nodes in the graph and on the ready channel are, tokens and provider included, those pushed under their ids. */
  ghost predicate AsPushed(g: Graph, pushed: map<NodeId, WorkNode>) {
    && (forall n <- g.nodes :: n in pushed && g.nodes[n] == pushed[n])
    && (forall o <- g.ready | o.Some? :: o.value.id in pushed && o.value == pushed[o.value.id])
  }

  lemma {:induction false} ReleaseAsPushed(g: Graph, kids: seq<NodeId>, pushed: map<NodeId, WorkNode>)
    requires AsPushed(g, pushed) && forall n <- g.nodes :: g.nodes[n].id == n
    ensures AsPushed(Release(g, kids, true), pushed)
  {
    if kids != [] {
      ReleaseAsPushed(g, kids[..|kids| - 1], pushed);
      ReleaseFrame(g, kids[..|kids| - 1], true);
    }
  }

  lemma AddAsPushed(g: Graph, node: WorkNode, deps: seq<NodeId>, pushed: map<NodeId, WorkNode>)
    requires AsPushed(g, pushed) && (node.id in pushed ==> pushed[node.id] == node)
    ensures AsPushed(Add(g, node, deps), pushed[node.id := node])
  {
  }

  lemma RemoveAsPushed(g: Graph, id: NodeId, pushed: map<NodeId, WorkNode>)
    requires AsPushed(g, pushed) && forall n <- g.nodes :: g.nodes[n].id == n
    ensures AsPushed(RemoveNode(g, id, true), pushed)
  {
    var cut := g.(nodes := g.nodes - {id}, indegree := g.indegree - {id});
    ReleaseAsPushed(cut, cut.Kids(id), pushed);
  }

  /** What `Release` appends to the channel: nodes of the graph, as they are stored. */
  ghost predicate AppendsStored(ready: seq<Option<WorkNode>>, nodes: map<NodeId, WorkNode>, ready': seq<Option<WorkNode>>) {
    && ready <= ready'
    && forall k :: |ready| <= k < |ready'| ==>
         ready'[k].Some? && ready'[k].value.id in nodes && ready'[k].value == nodes[ready'[k].value.id]
  }

  lemma {:induction false} ReleaseAppends(g: Graph, kids: seq<NodeId>)
    requires DeadBelowZero(g) && forall n <- g.nodes :: g.nodes[n].id == n
    ensures AppendsStored(g.ready, g.nodes, Release(g, kids, true).ready)
  {
    if kids != [] {
      var front, last := kids[..|kids| - 1], kids[|kids| - 1];
      ReleaseAppends(g, front);
      ReleaseFrame(g, front, true);
      ReleaseCounts(g, front, true);
    }
  }

  /** A removal sends the stored nodes. */
  lemma RemoveAppends(g: Graph, w: Waits, id: NodeId)
    requires Refines(g, w)
    ensures AppendsStored(g.ready, RemoveNode(g, id, true).nodes, RemoveNode(g, id, true).ready)
  {
    var cut := g.(nodes := g.nodes - {id}, indegree := g.indegree - {id});
    ReleaseAppends(cut, cut.Kids(id));
    ReleaseFrame(cut, cut.Kids(id), true);
  }

  // ---------------------------------------------------------------- Clear

  /** After `Clear` nobody waits, and the ids used so far stay used. */
  lemma ClearRefines(g: Graph, w: Waits)
    requires Refines(g, w)
    ensures Refines(EMPTY, w.(pending := map[], stuck := map[]))
  {
  }

  lemma RefinesRanked(g: Graph, w: Waits)
    requires Refines(g, w)
    ensures Ranked(g, w.order)
  {
  }
}
