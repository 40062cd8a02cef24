/** Books the scheduler keeps: how nodes leave the graph, the counters of the callbacks, the workers and the results. */
module RunnerLedger {
  import opened Nodes
  import opened GraphModel
  import opened Waiting
  import opened Subtree
  import opened Runner
  import opened RunnerSafety

  // ---------------------------------------------------------------- what the steps do to the graph's nodes

  /** The live nodes, what they wait for, and how the others left. */
  ghost predicate SameNodes(s: State, s': State) {
    && s'.graph.nodes == s.graph.nodes && s'.waits == s.waits
    && s'.history.done == s.history.done && s'.history.bad == s.history.bad
    && s'.history.cancelled == s.history.cancelled && s'.history.grounded == s.history.grounded
  }

  lemma BeginKeepsNodes(cfg: Config, s: State, step: Step)
    requires CanWork(cfg, s, step) && IsBegin(step)
    ensures SameNodes(s, Begin(cfg, s, step))
  {
  }

  lemma EndKeepsNodes(cfg: Config, s: State, step: Step)
    requires CanWork(cfg, s, step) && IsEnd(step)
    ensures SameNodes(s, End(cfg, s, step))
  {
  }

  lemma LaunchKeepsNodes(cfg: Config, s: State, step: Step)
    requires CanLaunch(cfg, s, step)
    ensures SameNodes(s, Launch(cfg, s, step))
  {
  }

  lemma PushKeepsNodes(cfg: Config, s: State, step: Step)
    requires Refines(s.graph, s.waits) && CanPush(cfg, s, step) && !step.PushAdd?
    ensures SameNodes(s, Push(cfg, s, step))
  {
    hide Refines, Add, AddWaits;
  }

  lemma ControlKeepsNodes(cfg: Config, s: State, step: Step)
    requires CanControl(cfg, s, step)
    ensures SameNodes(s, Control(cfg, s, step))
  {
  }

  lemma ListenKeepsNodes(cfg: Config, s: State, step: Step)
    requires CanListen(cfg, s, step)
    ensures SameNodes(s, Listen(cfg, s, step))
  {
  }

  /** Only the push listener's `Add` and the callback's removal change which nodes are live. */
  lemma NodesUntouched(cfg: Config, s: State, step: Step)
    requires Refines(s.graph, s.waits) && Enabled(cfg, s, step) && !step.PushAdd? && !step.WorkRemove?
    ensures SameNodes(s, Next(cfg, s, step))
  {
    hide Refines, SameNodes, Push, Listen, Launch, Begin, End, Callback, Control, CanPush, CanListen, CanLaunch, CanControl;
    if CanPush(cfg, s, step) {
      PushKeepsNodes(cfg, s, step);
    } else if CanListen(cfg, s, step) {
      ListenKeepsNodes(cfg, s, step);
    } else if CanLaunch(cfg, s, step) {
      LaunchKeepsNodes(cfg, s, step);
    } else if CanWork(cfg, s, step) {
      if IsBegin(step) {
        BeginKeepsNodes(cfg, s, step);
      } else {
        EndKeepsNodes(cfg, s, step);
      }
    } else {
      ControlKeepsNodes(cfg, s, step);
    }
  }

  /** What the push listener's `Add` does. */
  ghost predicate Added(s: State, s': State)
    requires s.pusher.PAdding?
  {
    var id, deps := s.pusher.req.node.id, s.pusher.req.deps;
    && id !in s.waits.order.rank.Keys && id !in s.graph.nodes.Keys && id !in deps
    && s' == s.(graph := s'.graph, waits := s'.waits, pusher := PIdle, history := s'.history)
    && s'.history == s.history.(grounded := s.history.grounded && forall d <- deps :: d in s.graph.nodes)
    && s'.graph.nodes.Keys == s.graph.nodes.Keys + {id}
    && Joined(s.waits, s'.waits, id, deps)
  }

  ghost predicate Joined(w: Waits, w': Waits, id: NodeId, deps: seq<NodeId>) {
    && w'.order == Ranking(w.order.rank[id := w.order.top], w.order.top + 1) && w'.deps == w.deps[id := deps]
    && w'.pending.Keys == w.pending.Keys + {id} && w'.stuck.Keys == w.stuck.Keys + {id}
    && w.stuck.Keys == w.pending.Keys
    && w'.pending[id] == multiset(deps) && w'.stuck[id] == 0
    && (forall n <- w.pending | n != id :: w'.pending[n] == w.pending[n][id := 0]
                                         && w'.stuck[n] == w.stuck[n] + w.pending[n][id])
  }

  lemma AddJoins(w: Waits, id: NodeId, deps: seq<NodeId>)
    requires w.stuck.Keys == w.pending.Keys
    ensures Joined(w, AddWaits(w, id, deps), id, deps)
  {
  }

  lemma AddedIntro(s: State, g': Graph, w': Waits, h': History)
    requires s.pusher.PAdding?
    requires var Request(node, deps) := s.pusher.req;
             && Fresh(s.waits, node.id, deps) && node.id !in s.graph.nodes
             && g'.nodes == s.graph.nodes[node.id := node] && Joined(s.waits, w', node.id, deps)
             && h' == s.history.(grounded := s.history.grounded && forall d <- deps :: d in s.graph.nodes)
    ensures Added(s, s.(graph := g', waits := w', pusher := PIdle, history := h'))
  {
  }

  lemma AddFacts(cfg: Config, s: State)
    requires Sound(s) && CanPush(cfg, s, PushAdd)
    ensures Added(s, Push(cfg, s, PushAdd))
  {
    assert s.waits.stuck.Keys == s.waits.pending.Keys;
    hide Joined, Refines, FreshRequests, NoNil, AddWaits, Added;
    var Request(node, deps) := s.pusher.req;
    PusherFresh(s);
    LiveIsRanked(s.graph, s.waits, node.id);
    AddJoins(s.waits, node.id, deps);
    var s' := Push(cfg, s, PushAdd);
    AddedIntro(s, s'.graph, s'.waits, s'.history);
  }

  /** What the callback of worker `i` does: `gone` leaves the graph. */
  ghost predicate Settled(cfg: Config, s: State, i: nat, s': State, gone: set<NodeId>)
    requires i < |s.workers| && s.workers[i].WCounted?
  {
    var id, h, h' := s.workers[i].id, s.history, s'.history;
    && id in gone && gone <= s.graph.nodes.Keys && s'.graph.nodes.Keys == s.graph.nodes.Keys - gone
    && s' == s.(graph := s'.graph, waits := s'.waits, history := h', workers := s.workers[i := WCancelling(|gone| - 1)])
    && (id !in cfg.fails || !cfg.propagate ==> gone == {id})
    && h' == (if id !in cfg.fails then h.(done := h.done + {id})
              else h.(bad := h.bad + {id}, cancelled := h.cancelled + (gone - {id})))
    && Discharged(s.waits, s'.waits, id, gone, id in cfg.fails && cfg.propagate)
  }

  /** The survivors no longer wait for a node that was removed alone; a cancelled node waited for a removed one. */
  ghost predicate Discharged(w: Waits, w': Waits, id: NodeId, gone: set<NodeId>, cancel: bool) {
    && w'.order == w.order && w'.deps == w.deps
    && w'.pending.Keys <= w.pending.Keys && w'.stuck.Keys <= w.stuck.Keys
    && (forall n <- w'.stuck :: w'.stuck[n] == w.stuck[n])
    && (forall n <- w'.pending :: w'.pending[n] == if cancel then w.pending[n] else w.pending[n][id := 0])
    && (forall n <- w'.pending, d <- gone :: w'.pending[n][d] == 0)
    && (forall n <- gone :: n == id || WaitsForOneOf(w, n, gone))
  }

  ghost predicate WaitsForOneOf(w: Waits, n: NodeId, gone: set<NodeId>) {
    && n in w.pending
    && exists d <- gone :: w.pending[n][d] > 0 && d in w.order.rank && n in w.order.rank && w.order.rank[d] < w.order.rank[n]
  }

  lemma RemoveDischarges(w: Waits, id: NodeId)
    requires w.stuck.Keys == w.pending.Keys
    ensures Discharged(w, RemoveWaits(w, id), id, {id}, false)
  {
  }

  lemma AloneSettles(cfg: Config, s: State, i: nat, g': Graph)
    requires i < |s.workers| && s.workers[i].WCounted? && s.workers[i].id in s.graph.nodes
    requires s.waits.stuck.Keys == s.waits.pending.Keys && (s.workers[i].id !in cfg.fails || !cfg.propagate)
    requires g'.nodes.Keys == s.graph.nodes.Keys - {s.workers[i].id}
    ensures var id := s.workers[i].id;
            Settled(cfg, s, i, LeftAlone(cfg, s, id, g').(workers := s.workers[i := WCancelling(0)]), {id})
  {
    var id := s.workers[i].id;
    RemoveDischarges(s.waits, id);
    assert s.history.cancelled + ({id} - {id}) == s.history.cancelled;
  }

  lemma SettleOne(cfg: Config, s: State, i: nat)
    requires Refines(s.graph, s.waits) && CanWork(cfg, s, WorkRemove(i)) && s.workers[i].id in s.graph.nodes
    requires s.workers[i].id !in cfg.fails || !cfg.propagate
    ensures Settled(cfg, s, i, Callback(cfg, s, i), {s.workers[i].id})
  {
    var id := s.workers[i].id;
    RemoveUnlinks(s.graph, id, true);
    AloneSettles(cfg, s, i, RemoveNode(s.graph, id, true));
  }

  lemma TreeSettles(cfg: Config, s: State, i: nat, g': Graph, gone: set<NodeId>)
    requires i < |s.workers| && s.workers[i].WCounted? && s.workers[i].id in cfg.fails && cfg.propagate
    requires var id := s.workers[i].id;
             && id in gone && gone <= s.graph.nodes.Keys && g'.nodes.Keys == s.graph.nodes.Keys - gone
             && Discharged(s.waits, CancelWaits(s.waits, gone), id, gone, true)
    ensures var id := s.workers[i].id;
            Settled(cfg, s, i, LeftWith(s, id, g', gone).(workers := s.workers[i := WCancelling(|gone - {id}|)]), gone)
  {
    assert |gone| == |gone - {s.workers[i].id}| + 1;
  }

  lemma CancelledWaits(g: Graph, w: Waits, id: NodeId)
    requires Refines(g, w)
    ensures var (_, removed) := RemoveSubtree(g, id, w.order);
            forall n <- removed :: n == id || WaitsForOneOf(w, n, Members(removed))
  {
    var (_, removed) := RemoveSubtree(g, id, w.order);
    RemoveSubtreeExact(g, id, w.order);
    forall n | n in removed && n != id
      ensures WaitsForOneOf(w, n, Members(removed))
    {
      RemovedHasRemovedParent(g, id, w.order, n);
      var y :| y in removed && n in g.Kids(y);
      WaitsForParent(g, w, n, y);
      assert y in Members(removed);
    }
  }

  lemma RemovedKeys(g: Graph, w: Waits, id: NodeId)
    requires Refines(g, w) && id in g.nodes
    ensures var (g', removed) := RemoveSubtree(g, id, w.order);
            && g'.nodes.Keys == g.nodes.Keys - Members(removed) && Members(removed) <= g.nodes.Keys
            && id in Members(removed)
  {
    RemoveSubtreeExact(g, id, w.order);
    RemoveSubtreeOrder(g, id, w.order);
  }

  lemma DischargedIntro(w: Waits, live': set<NodeId>, id: NodeId, gone: set<NodeId>)
    requires w.stuck.Keys == w.pending.Keys && live' == w.pending.Keys - gone
    requires forall n <- gone :: n == id || WaitsForOneOf(w, n, gone)
    requires forall n, d | n in live' && n in w.pending && d in gone :: w.pending[n][d] == 0
    ensures Discharged(w, CancelWaits(w, gone), id, gone, true)
  {
  }

  lemma CancelDischarges(g: Graph, w: Waits, id: NodeId)
    requires Refines(g, w) && id in g.nodes
    ensures var (g', removed) := RemoveSubtree(g, id, w.order);
            && g'.nodes.Keys == g.nodes.Keys - Members(removed) && Members(removed) <= g.nodes.Keys
            && id in Members(removed)
            && Discharged(w, CancelWaits(w, Members(removed)), id, Members(removed), true)
  {
    assert w.stuck.Keys == w.pending.Keys == g.nodes.Keys;
    var (g', removed) := RemoveSubtree(g, id, w.order);
    RemovedKeys(g, w, id);
    SurvivorsDoNotWait(g, w, id);
    CancelledWaits(g, w, id);
    hide RemoveSubtree, CancelWaits, Discharged, Refines, WaitsForOneOf;
    DischargedIntro(w, g'.nodes.Keys, id, Members(removed));
  }

  lemma SettleTree(cfg: Config, s: State, i: nat) returns (gone: set<NodeId>)
    requires Refines(s.graph, s.waits) && i < |s.workers| && s.workers[i].WCounted? && s.workers[i].id in s.graph.nodes
    requires s.workers[i].id in cfg.fails && cfg.propagate
    ensures Settled(cfg, s, i, Callback(cfg, s, i), gone)
  {
    hide LeftWith, Discharged, Settled, Refines, RemoveSubtree, CancelWaits, Members, Ranked;
    var id := s.workers[i].id;
    RefinesRanked(s.graph, s.waits);
    CancelDischarges(s.graph, s.waits, id);
    gone := Members(RemoveSubtree(s.graph, id, s.waits.order).1);
    TreeSettles(cfg, s, i, RemoveSubtree(s.graph, id, s.waits.order).0, gone);
  }

  lemma SettleFacts(cfg: Config, s: State, i: nat) returns (gone: set<NodeId>)
    requires Sound(s) && Staged(s) && CanWork(cfg, s, WorkRemove(i))
    ensures Settled(cfg, s, i, Callback(cfg, s, i), gone)
  {
    HeldIsEntry(s, i, s.workers[i].id);
    hide Settled, Staged, Callback;
    if s.workers[i].id in cfg.fails && cfg.propagate {
      gone := SettleTree(cfg, s, i);
    } else {
      SettleOne(cfg, s, i);
      gone := {s.workers[i].id};
    }
  }
}
