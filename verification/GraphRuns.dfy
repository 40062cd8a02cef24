/** Whole runs of the graph: any sequence of additions, removals and subtree removals, in any order. */
module GraphRuns {
  import opened Nodes
  import opened GraphModel
  import opened Waiting
  import opened Subtree

  datatype Op =
    | Push(node: WorkNode, deps: seq<NodeId>)
    | Settle(id: NodeId)
    | Cancel(id: NodeId)

  /** No id is pushed twice and no node depends on itself; nothing is asked of removals. */
  ghost predicate Admissible(ops: seq<Op>) {
    && (forall i, j | 0 <= i < j < |ops| && ops[i].Push? && ops[j].Push? :: ops[i].node.id != ops[j].node.id)
    && (forall op <- ops | op.Push? :: op.node.id !in op.deps)
  }

  ghost predicate Pushed(ops: seq<Op>, id: NodeId) {
    exists op <- ops :: op.Push? && op.node.id == id
  }

  ghost function Apply(g: Graph, w: Waits, op: Op): (r: (Graph, Waits))
    requires Refines(g, w) && (op.Push? ==> Fresh(w, op.node.id, op.deps))
    ensures Refines(r.0, r.1)
  {
    match op
    case Push(node, deps) =>
      AddRefines(g, w, node, deps);
      (Add(g, node, deps), AddWaits(w, node.id, deps))
    case Settle(id) =>
      RemoveRefines(g, w, id);
      (RemoveNode(g, id, true), RemoveWaits(w, id))
    case Cancel(id) =>
      var (g', removed) := RemoveSubtree(g, id, w.order);
      CancelRefines(g, w, id);
      (g', CancelWaits(w, Members(removed)))
  }

  /** The graph after a run, and what its nodes wait for; nobody reads the ready channel. */
  ghost function Run(ops: seq<Op>): (r: (Graph, Waits))
    requires Admissible(ops)
    ensures Refines(r.0, r.1)
    ensures forall x :: x in r.1.order.rank <==> Pushed(ops, x)
  {
    if ops == [] then (EMPTY, NOTHING)
    else
      var front, op := ops[..|ops| - 1], ops[|ops| - 1];
      assert ops == front + [op];
      var (g, w) := Run(front);
      PushedLast(front, op);
      Apply(g, w, op)
  }

  lemma PushedLast(front: seq<Op>, op: Op)
    requires Admissible(front + [op])
    ensures op.Push? ==> !Pushed(front, op.node.id)
    ensures forall x :: Pushed(front + [op], x) <==> Pushed(front, x) || (op.Push? && op.node.id == x)
  {
    var ops := front + [op];
    assert ops[|front|] == op && (forall i :: 0 <= i < |front| ==> ops[i] == front[i]);
    forall x | Pushed(front, x) || (op.Push? && op.node.id == x)
      ensures Pushed(ops, x)
    {
      if Pushed(front, x) {
        var o :| o in front && o.Push? && o.node.id == x;
        assert o in ops;
      } else {
        assert op in ops;
      }
    }
  }

  /** How often `x` has been published. */
  ghost predicate PublishedOnce(g: Graph, w: Waits) {
    && NoNil(g.ready)
    && (forall x <- g.nodes :: Ids(g.ready)[x] == if g.Indegree(x) == 0 then 1 else 0)
    && (forall x :: Ids(g.ready)[x] <= if x in w.order.rank then 1 else 0)
  }

  lemma PushPublishes(g: Graph, w: Waits, op: Op)
    requires Refines(g, w) && PublishedOnce(g, w) && op.Push? && Fresh(w, op.node.id, op.deps)
    ensures PublishedOnce(Add(g, op.node, op.deps), AddWaits(w, op.node.id, op.deps))
  {
    AddPublishes(g, op.node, op.deps);
    PublishedAfter(g, w, Add(g, op.node, op.deps), AddWaits(w, op.node.id, op.deps));
  }

  lemma SettlePublishes(g: Graph, w: Waits, id: NodeId)
    requires Refines(g, w) && PublishedOnce(g, w)
    ensures PublishedOnce(RemoveNode(g, id, true), RemoveWaits(w, id))
  {
    RemovePublishes(g, w, id);
    RemoveUnlinks(g, id, true);
    PublishedAfter(g, w, RemoveNode(g, id, true), RemoveWaits(w, id));
  }

  lemma CancelPublishes(g: Graph, w: Waits, id: NodeId)
    requires Refines(g, w) && PublishedOnce(g, w)
    ensures var (g', removed) := RemoveSubtree(g, id, w.order);
            PublishedOnce(g', CancelWaits(w, Members(removed)))
  {
    var (g', removed) := RemoveSubtree(g, id, w.order);
    CancelEntry(g, w, id);
    RemoveSubtreeExact(g, id, w.order);
    PublishedAfterCut(g, w, g', CancelWaits(w, Members(removed)), removed);
  }

  lemma PublishedAfterCut(g: Graph, w: Waits, g': Graph, w': Waits, removed: seq<NodeId>)
    requires PublishedOnce(g, w) && g.nodes.Keys <= w.order.rank.Keys && w'.order == w.order
    requires Cut(g, g', removed)
    ensures PublishedOnce(g', w')
  {
    assert Entry(g') <= Entry(g);
    assert Entry(g') - Entry(g) == {};
    PublishedAfter(g, w, g', w');
  }

  /**
   In every run: nothing nil is published, no node is published twice, and a live node has been published exactly when
   its counter is zero, that is, when it waits for nothing.
   */
  lemma {:induction false} EveryRunPublishesOnce(ops: seq<Op>)
    requires Admissible(ops)
    ensures PublishedOnce(Run(ops).0, Run(ops).1)
  {
    if ops != [] {
      var front, op := ops[..|ops| - 1], ops[|ops| - 1];
      assert ops == front + [op];
      PushedLast(front, op);
      EveryRunPublishesOnce(front);
      var (g, w) := Run(front);
      match op
      case Push(_, _) => PushPublishes(g, w, op);
      case Settle(id) => SettlePublishes(g, w, id);
      case Cancel(id) => CancelPublishes(g, w, id);
    }
  }

  lemma PublishedAfter(g: Graph, w: Waits, g': Graph, w': Waits)
    requires PublishedOnce(g, w) && w.order.rank.Keys <= w'.order.rank.Keys && g'.nodes.Keys <= w'.order.rank.Keys
    requires forall x <- g'.nodes :: x in g.nodes || x !in w.order.rank
    requires forall x <- g'.nodes :: x in Entry(g) ==> x in Entry(g')
    requires NoNil(g'.ready) && Ids(g'.ready) == Ids(g.ready) + multiset(Entry(g') - Entry(g))
    ensures PublishedOnce(g', w')
  {
    forall x <- g'.nodes
      ensures Ids(g'.ready)[x] == if g'.Indegree(x) == 0 then 1 else 0
    {
      assert x in Entry(g) <==> x in g.nodes && g.Indegree(x) == 0;
      assert x in Entry(g') <==> g'.Indegree(x) == 0;
    }
  }

  // ---------------------------------------------------------------- the nodes themselves

  /** Each id with the node that was pushed under it. */
  function PushedNodes(ops: seq<Op>): map<NodeId, WorkNode> {
    if ops == [] then map[]
    else
      var op := ops[|ops| - 1];
      var before := PushedNodes(ops[..|ops| - 1]);
      if op.Push? then before[op.node.id := op.node] else before
  }

  lemma {:induction false} PushedNodesAt(ops: seq<Op>, i: nat)
    requires Admissible(ops) && i < |ops| && ops[i].Push?
    ensures ops[i].node.id in PushedNodes(ops) && PushedNodes(ops)[ops[i].node.id] == ops[i].node
  {
    var front := ops[..|ops| - 1];
    if i < |front| {
      assert forall o <- front :: o in ops;
      assert front[i] == ops[i];
      PushedNodesAt(front, i);
    }
  }

  lemma {:induction false} PushedNodesKeys(ops: seq<Op>, x: NodeId)
    ensures x in PushedNodes(ops) ==> Pushed(ops, x)
  {
    if ops != [] {
      var front, op := ops[..|ops| - 1], ops[|ops| - 1];
      PushedNodesKeys(front, x);
      assert op in ops && forall o <- front :: o in ops;
    }
  }

  lemma ApplyAsPushed(g: Graph, w: Waits, op: Op, pushed: map<NodeId, WorkNode>)
    requires Refines(g, w) && (op.Push? ==> Fresh(w, op.node.id, op.deps) && op.node.id !in pushed) && AsPushed(g, pushed)
    ensures AsPushed(Apply(g, w, op).0, if op.Push? then pushed[op.node.id := op.node] else pushed)
  {
    match op
    case Push(node, deps) => AddAsPushed(g, node, deps, pushed);
    case Settle(id) => RemoveAsPushed(g, id, pushed);
    case Cancel(id) => RemoveSubtreeExact(g, id, w.order);
  }

  lemma {:induction false} RunAsPushed(ops: seq<Op>)
    requires Admissible(ops)
    ensures AsPushed(Run(ops).0, PushedNodes(ops))
  {
    if ops != [] {
      var front, op := ops[..|ops| - 1], ops[|ops| - 1];
      assert ops == front + [op];
      RunLast(front, op);
      hide Run, Apply, Refines, AsPushed;
      RunAsPushed(front);
      if op.Push? {
        PushedLast(front, op);
        PushedNodesKeys(front, op.node.id);
      }
      ApplyAsPushed(Run(front).0, Run(front).1, op, PushedNodes(front));
    }
  }

  /** In every run, what the graph stores and what it publishes under an id is the node pushed under it, unchanged. */
  lemma EveryRunKeepsNodes(ops: seq<Op>, i: nat)
    requires Admissible(ops) && i < |ops| && ops[i].Push?
    ensures var g, node := Run(ops).0, ops[i].node;
            && (node.id in g.nodes ==> g.nodes[node.id] == node)
            && (forall o <- g.ready | o.Some? && o.value.id == node.id :: o.value == node)
  {
    RunAsPushed(ops);
    PushedNodesAt(ops, i);
  }

  /** Ranks grow along a path of live nodes. */
  lemma {:induction false} RankGrows(g: Graph, order: Ranking, p: seq<NodeId>)
    requires Ranked(g, order) && IsPath(g, p)
    ensures |p| > 1 ==> order.rank[p[0]] < order.rank[p[|p| - 1]]
  {
    if |p| > 1 {
      var q := p[..|p| - 1];
      assert forall x <- q :: x in p;
      RankGrows(g, order, q);
      assert p[|p| - 1] in g.Kids(q[|q| - 1]) && q[|q| - 1] in p;
    }
  }

  /** `Add` never looks for a cycle, and in no run is there one: no path of live nodes comes back to its start. */
  lemma EveryRunAcyclic(ops: seq<Op>, p: seq<NodeId>)
    requires Admissible(ops) && IsPath(Run(ops).0, p) && |p| > 1
    ensures p[0] != p[|p| - 1]
  {
    RankGrows(Run(ops).0, Run(ops).1.order, p);
  }

  // ---------------------------------------------------------------- progress

  /** Every dependency a live node still waits for is live itself. */
  ghost predicate WaitsForLive(w: Waits) {
    && w.stuck.Keys == w.pending.Keys
    && (forall n <- w.pending :: w.stuck[n] == 0)
    && (forall n <- w.pending, d :: w.pending[n][d] > 0 ==> d in w.pending)
  }

  /** A node of least rank among a non-empty set. */
  lemma {:induction false} LeastRank(s: set<NodeId>, rank: map<NodeId, nat>) returns (least: NodeId)
    requires s != {} && s <= rank.Keys
    ensures least in s && forall x <- s :: rank[least] <= rank[x]
  {
    least :| least in s;
    if s != {least} {
      var other := LeastRank(s - {least}, rank);
      if rank[other] < rank[least] {
        least := other;
      }
    }
  }

  lemma WaitedIsOlder(g: Graph, w: Waits, n: NodeId, d: NodeId)
    requires Refines(g, w) && n in g.nodes && d in g.nodes && d in w.pending[n]
    ensures d in w.order.rank && n in w.order.rank && w.order.rank[d] < w.order.rank[n]
  {
    assert multiset(g.Kids(d))[n] == w.pending[n][d] > 0;
    assert n in g.Kids(d);
  }

  lemma WaitsForNothing(g: Graph, w: Waits, n: NodeId)
    requires Refines(g, w) && WaitsForLive(w) && n in g.nodes
    requires forall x <- g.nodes :: w.order.rank[n] <= w.order.rank[x]
    ensures w.pending[n] == multiset{}
  {
    forall d
      ensures d !in w.pending[n]
    {
      if d in g.nodes && d in w.pending[n] {
        WaitedIsOlder(g, w, n, d);
      }
    }
  }

  /** A non-empty graph whose nodes wait for live nodes only has a node that waits for nothing. */
  lemma SomeEntry(g: Graph, w: Waits)
    requires Refines(g, w) && WaitsForLive(w) && g.nodes.Keys != {}
    ensures Entry(g) != {}
  {
    var n := LeastRank(g.nodes.Keys, w.order.rank);
    WaitsForNothing(g, w, n);
    assert g.indegree[n] == Total(w, n) == 0;
    assert n in Entry(g);
  }

  // ---------------------------------------------------------------- nodes added too late

  /** `n` waits for a node that is not live, or for one that lost track of `n` when it was pushed after it. */
  ghost predicate Blocked(w: Waits, n: NodeId) {
    && n in w.pending && n in w.stuck
    && (w.stuck[n] > 0 || exists d <- w.pending[n] :: d !in w.pending)
  }

  lemma BlockedIsNoEntry(g: Graph, w: Waits, n: NodeId)
    requires Refines(g, w) && Blocked(w, n)
    ensures n !in Entry(g)
  {
    assert g.indegree[n] == Total(w, n);
    if w.stuck[n] == 0 {
      var d :| d in w.pending[n] && d !in w.pending;
      assert 0 < w.pending[n][d] <= |w.pending[n]|;
    }
  }

  /** As long as only live nodes are removed, a blocked node stays blocked. */
  lemma BlockedForever(w: Waits, n: NodeId, id: NodeId, deps: seq<NodeId>, gone: set<NodeId>)
    requires w.stuck.Keys == w.pending.Keys && Blocked(w, n)
    ensures n != id ==> Blocked(AddWaits(w, id, deps), n)
    ensures n != id && id in w.pending ==> Blocked(RemoveWaits(w, id), n)
    ensures n !in gone ==> Blocked(CancelWaits(w, gone), n)
  {
    if w.stuck[n] == 0 {
      var d :| d in w.pending[n] && d !in w.pending;
      if n != id && d != id {
        var w' := AddWaits(w, id, deps);
        assert d in w'.pending[n] && d !in w'.pending;
      }
      if n != id && id in w.pending {
        var w' := RemoveWaits(w, id);
        assert d in w'.pending[n] && d !in w'.pending;
      }
      if n !in gone {
        var w' := CancelWaits(w, gone);
        assert d in w'.pending[n] && d !in w'.pending;
      }
    }
  }

  /** The run removes live nodes only, as the scheduler does. */
  ghost predicate LiveRemovals(ops: seq<Op>)
    requires Admissible(ops)
  {
    ops == []
    || (LiveRemovals(ops[..|ops| - 1])
        && (!ops[|ops| - 1].Push? ==> ops[|ops| - 1].id in Run(ops[..|ops| - 1]).0.nodes))
  }

  /** Some dependency of the `i`-th operation's node was not live when the node was pushed. */
  ghost predicate PushedLate(ops: seq<Op>, i: nat)
    requires Admissible(ops) && i < |ops| && ops[i].Push?
  {
    exists d <- ops[i].deps :: d !in Run(ops[..i]).0.nodes
  }

  ghost predicate ApplicableLive(g: Graph, w: Waits, op: Op) {
    && Refines(g, w)
    && (op.Push? ==> Fresh(w, op.node.id, op.deps))
    && (!op.Push? ==> op.id in g.nodes)
  }

  /** Every operation publishes exactly the new entry points. */
  lemma ApplyPublishes(g: Graph, w: Waits, op: Op)
    requires Refines(g, w) && (op.Push? ==> Fresh(w, op.node.id, op.deps))
    ensures var (g', _) := Apply(g, w, op); Ids(g'.ready) == Ids(g.ready) + multiset(Entry(g') - Entry(g))
  {
    match op
    case Push(node, deps) =>
      NotLive(g, w, node.id);
      AddPublishes(g, node, deps);
    case Settle(id) => RemovePublishes(g, w, id);
    case Cancel(id) =>
      RemoveSubtreeExact(g, id, w.order);
      CancelEntry(g, w, id);
      var g' := RemoveSubtree(g, id, w.order).0;
      hide Entry, Ids;
      assert Entry(g') - Entry(g) == {};
  }

  /** `n` has never been published, and if it is live it is blocked. */
  ghost predicate Late(g: Graph, w: Waits, n: NodeId) {
    n in w.order.rank && Ids(g.ready)[n] == 0 && (n in g.nodes ==> Blocked(w, n))
  }

  lemma BlockedAfterApply(g: Graph, w: Waits, op: Op, n: NodeId)
    requires ApplicableLive(g, w, op) && n in w.order.rank && (n in g.nodes ==> Blocked(w, n))
    ensures var (g', w') := Apply(g, w, op);
            n in w'.order.rank && (n in g'.nodes ==> Blocked(w', n))
  {
    assert w.stuck.Keys == w.pending.Keys == g.nodes.Keys;
    match op
    case Push(node, deps) =>
      assert n != node.id;
      if n in g.nodes {
        BlockedForever(w, n, node.id, deps, {});
      }
    case Settle(id) =>
      RemoveUnlinks(g, id, true);
      if n in g.nodes {
        BlockedForever(w, n, id, [], {});
      }
    case Cancel(id) =>
      RemoveSubtreeExact(g, id, w.order);
      var gone := Members(RemoveSubtree(g, id, w.order).1);
      if n in g.nodes {
        BlockedForever(w, n, id, [], gone);
      }
  }

  lemma LateStays(g: Graph, w: Waits, op: Op, n: NodeId)
    requires ApplicableLive(g, w, op) && Late(g, w, n)
    ensures Late(Apply(g, w, op).0, Apply(g, w, op).1, n)
  {
    BlockedAfterApply(g, w, op, n);
    ApplyPublishes(g, w, op);
    var (g', w') := Apply(g, w, op);
    hide Apply, Refines, Blocked;
    if n in g'.nodes {
      BlockedIsNoEntry(g', w', n);
    }
    assert n !in Entry(g');
  }

  lemma BlockedAtFirst(w: Waits, id: NodeId, deps: seq<NodeId>, d: NodeId)
    requires w.stuck.Keys == w.pending.Keys && id !in deps && d in deps && d !in w.pending
    ensures Blocked(AddWaits(w, id, deps), id) && id in AddWaits(w, id, deps).order.rank
  {
    var w' := AddWaits(w, id, deps);
    assert d in w'.pending[id] && d !in w'.pending;
  }

  lemma LateAtFirst(g: Graph, w: Waits, op: Op)
    requires ApplicableLive(g, w, op) && PublishedOnce(g, w) && op.Push? && exists d <- op.deps :: d !in g.nodes
    ensures Late(Apply(g, w, op).0, Apply(g, w, op).1, op.node.id)
  {
    var n := op.node.id;
    var d :| d in op.deps && d !in g.nodes;
    assert w.stuck.Keys == w.pending.Keys == g.nodes.Keys;
    BlockedAtFirst(w, n, op.deps, d);
    ApplyPublishes(g, w, op);
    assert Ids(g.ready)[n] == 0;
    var (g', w') := Apply(g, w, op);
    hide Refines, Add, AddWaits, Blocked, PublishedOnce, Entry, Ids, Fresh;
    BlockedIsNoEntry(g', w', n);
  }

  lemma RunLast(front: seq<Op>, op: Op)
    requires Admissible(front + [op])
    ensures Admissible(front) && (op.Push? ==> Fresh(Run(front).1, op.node.id, op.deps))
    ensures Run(front + [op]) == Apply(Run(front).0, Run(front).1, op)
  {
    var ops := front + [op];
    assert ops[..|ops| - 1] == front && ops[|ops| - 1] == op && op in ops;
    assert forall o <- front :: o in ops;
    assert forall i :: 0 <= i < |front| ==> front[i] == ops[i];
    PushedLast(front, op);
  }

  lemma LiveLast(front: seq<Op>, op: Op)
    requires Admissible(front) && Admissible(front + [op]) && LiveRemovals(front + [op])
    ensures LiveRemovals(front) && (!op.Push? ==> op.id in Run(front).0.nodes)
  {
    hide Run, Admissible;
    var ops := front + [op];
    assert ops[..|ops| - 1] == front && ops[|ops| - 1] == op;
  }

  /** The last operation of a run of live removals. */
  lemma Prefixes(ops: seq<Op>)
    requires Admissible(ops) && LiveRemovals(ops) && ops != []
    ensures Admissible(ops[..|ops| - 1]) && LiveRemovals(ops[..|ops| - 1])
    ensures ApplicableLive(Run(ops[..|ops| - 1]).0, Run(ops[..|ops| - 1]).1, ops[|ops| - 1])
    ensures Run(ops) == Apply(Run(ops[..|ops| - 1]).0, Run(ops[..|ops| - 1]).1, ops[|ops| - 1])
  {
    hide Run, Apply, Admissible, LiveRemovals, Fresh, Refines;
    var front, op := ops[..|ops| - 1], ops[|ops| - 1];
    assert ops == front + [op];
    RunLast(front, op);
    LiveLast(front, op);
  }

  lemma PushedIsRanked(ops: seq<Op>, i: nat)
    requires Admissible(ops) && i < |ops| && ops[i].Push?
    ensures ops[i].node.id in Run(ops).1.order.rank
  {
    assert Pushed(ops, ops[i].node.id);
  }

  lemma SamePrefix(ops: seq<Op>, i: nat)
    requires Admissible(ops) && i < |ops| - 1 && ops[i].Push? && Admissible(ops[..|ops| - 1])
    ensures var front := ops[..|ops| - 1]; front[i] == ops[i] && (PushedLate(front, i) <==> PushedLate(ops, i))
  {
    assert ops[..|ops| - 1][..i] == ops[..i];
  }

  lemma {:induction false} LateForever(ops: seq<Op>, i: nat)
    requires Admissible(ops) && LiveRemovals(ops) && i < |ops| && ops[i].Push? && PushedLate(ops, i)
    ensures Late(Run(ops).0, Run(ops).1, ops[i].node.id)
  {
    var front, op := ops[..|ops| - 1], ops[|ops| - 1];
    Prefixes(ops);
    hide Run, Apply, Late, Refines, Admissible, LiveRemovals, ApplicableLive;
    if i == |front| {
      hide PublishedOnce;
      EveryRunPublishesOnce(front);
      LateAtFirst(Run(front).0, Run(front).1, op);
    } else {
      SamePrefix(ops, i);
      hide PushedLate;
      LateForever(front, i);
      LateStays(Run(front).0, Run(front).1, op, ops[i].node.id);
    }
  }

  // ---------------------------------------------------------------- nodes added in time

  /** `n` waits exactly for those of its dependencies that are live. */
  ghost predicate InTime(g: Graph, w: Waits, n: NodeId, deps: seq<NodeId>) {
    && (forall d <- deps :: d in w.order.rank)
    && (n in g.nodes ==>
          && n in w.pending && n in w.stuck && w.stuck[n] == 0
          && forall d :: w.pending[n][d] == if d in g.nodes then multiset(deps)[d] else 0)
  }

  lemma InTimeAfterAdd(g: Graph, w: Waits, node: WorkNode, other: seq<NodeId>, n: NodeId, deps: seq<NodeId>)
    requires w.stuck.Keys == w.pending.Keys && Fresh(w, node.id, other) && n in w.order.rank && InTime(g, w, n, deps)
    ensures InTime(Add(g, node, other), AddWaits(w, node.id, other), n, deps)
  {
    var id, g', w' := node.id, Add(g, node, other), AddWaits(w, node.id, other);
    assert id !in deps && n != id && g'.nodes == g.nodes[id := node];
    hide Add;
    if n in g.nodes {
      assert w.pending[n][id] == 0;
      assert w'.pending[n] == w.pending[n][id := 0] && w'.stuck[n] == w.stuck[n];
    }
    hide AddWaits;
  }

  lemma InTimeAfterRemove(g: Graph, w: Waits, id: NodeId, n: NodeId, deps: seq<NodeId>)
    requires w.stuck.Keys == w.pending.Keys && InTime(g, w, n, deps)
    ensures InTime(RemoveNode(g, id, true), RemoveWaits(w, id), n, deps)
  {
    RemoveUnlinks(g, id, true);
    hide RemoveNode;
  }

  lemma InTimeAfterCancel(g: Graph, w: Waits, id: NodeId, n: NodeId, deps: seq<NodeId>)
    requires Refines(g, w) && InTime(g, w, n, deps)
    ensures var (g', removed) := RemoveSubtree(g, id, w.order);
            InTime(g', CancelWaits(w, Members(removed)), n, deps)
  {
    RemoveSubtreeExact(g, id, w.order);
    SurvivorsDoNotWait(g, w, id);
    assert w.stuck.Keys == w.pending.Keys;
    hide Refines, InTime, RemoveSubtree, Cut, Reachable;
    InTimeAfterCut(g, w, RemoveSubtree(g, id, w.order).0, RemoveSubtree(g, id, w.order).1, n, deps);
  }

  lemma InTimeStays(g: Graph, w: Waits, op: Op, n: NodeId, deps: seq<NodeId>)
    requires ApplicableLive(g, w, op) && n in w.order.rank && InTime(g, w, n, deps)
    ensures InTime(Apply(g, w, op).0, Apply(g, w, op).1, n, deps)
  {
    assert w.stuck.Keys == w.pending.Keys;
    hide Refines, InTime, RemoveSubtree, RemoveNode, Add, AddWaits, RemoveWaits, CancelWaits;
    match op
    case Push(node, other) => InTimeAfterAdd(g, w, node, other, n, deps);
    case Settle(id) => InTimeAfterRemove(g, w, id, n, deps);
    case Cancel(id) => InTimeAfterCancel(g, w, id, n, deps);
  }

  lemma InTimeAfterCut(g: Graph, w: Waits, g': Graph, removed: seq<NodeId>, n: NodeId, deps: seq<NodeId>)
    requires w.stuck.Keys == w.pending.Keys && InTime(g, w, n, deps) && Cut(g, g', removed)
    requires forall x, d | x in g'.nodes && x in w.pending && d in removed :: w.pending[x][d] == 0
    ensures InTime(g', CancelWaits(w, Members(removed)), n, deps)
  {
  }

  lemma InTimeAtFirst(g: Graph, w: Waits, op: Op)
    requires ApplicableLive(g, w, op) && op.Push? && forall d <- op.deps :: d in g.nodes
    ensures InTime(Apply(g, w, op).0, Apply(g, w, op).1, op.node.id, op.deps)
  {
    assert forall d :: multiset(op.deps)[d] > 0 ==> d in op.deps;
  }

  lemma {:induction false} InTimeForever(ops: seq<Op>, i: nat)
    requires Admissible(ops) && LiveRemovals(ops) && i < |ops| && ops[i].Push? && !PushedLate(ops, i)
    ensures var (g, w) := Run(ops);
            ops[i].node.id in w.order.rank && InTime(g, w, ops[i].node.id, ops[i].deps)
  {
    var front, op := ops[..|ops| - 1], ops[|ops| - 1];
    Prefixes(ops);
    PushedIsRanked(ops, i);
    hide Run, Apply, InTime, Refines, Admissible, LiveRemovals, ApplicableLive;
    if i == |front| {
      InTimeAtFirst(Run(front).0, Run(front).1, op);
    } else {
      SamePrefix(ops, i);
      hide PushedLate;
      InTimeForever(front, i);
      InTimeStays(Run(front).0, Run(front).1, op, ops[i].node.id, ops[i].deps);
    }
  }

  /** In time, a live node is an entry point as soon as no dependency is live. */
  lemma InTimeEntry(g: Graph, w: Waits, n: NodeId, deps: seq<NodeId>)
    requires Refines(g, w) && InTime(g, w, n, deps) && n in g.nodes
    ensures n in Entry(g) <==> forall d <- deps :: d !in g.nodes
  {
    assert g.indegree[n] == Total(w, n) == |w.pending[n]|;
    if forall d <- deps :: d !in g.nodes {
      assert w.pending[n] == multiset{};
    } else {
      var d :| d in deps && d in g.nodes;
      assert 0 < w.pending[n][d] <= |w.pending[n]|;
    }
  }

  /**
   Dependencies are satisfied when none of them is live any more. A live node is published at that moment if and only if
   all of them were live when it was pushed; otherwise it never is.
   */
  lemma PublishedWhenSatisfied(ops: seq<Op>, i: nat)
    requires Admissible(ops) && LiveRemovals(ops) && i < |ops| && ops[i].Push?
    ensures var g := Run(ops).0;
            && (PushedLate(ops, i) ==> Ids(g.ready)[ops[i].node.id] == 0)
            && (ops[i].node.id in g.nodes ==>
                  (Ids(g.ready)[ops[i].node.id] == 1 <==> !PushedLate(ops, i) && forall d <- ops[i].deps :: d !in g.nodes))
  {
    EveryRunPublishesOnce(ops);
    hide Run, Refines;
    if PushedLate(ops, i) {
      LateForever(ops, i);
    } else {
      InTimeForever(ops, i);
      var (g, w) := Run(ops);
      if ops[i].node.id in g.nodes {
        InTimeEntry(g, w, ops[i].node.id, ops[i].deps);
      }
    }
  }
}
