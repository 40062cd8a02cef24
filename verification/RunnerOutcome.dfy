/**
 How each node ends, and why the schedule does not matter. Under the propagate strategy a node completes if it and all its
 ancestors succeed, fails if it fails and all its ancestors succeed, and is cancelled if an ancestor fails.
 */
module RunnerOutcome {
  import opened Nodes
  import opened GraphModel
  import opened Waiting
  import GraphRuns
  import opened Runner
  import opened RunnerSafety
  import opened RunnerLedger
  import opened RunnerBooks

  /** The nodes whose end releases their dependents. */
  function Released(cfg: Config, s: State): set<NodeId> {
    s.history.done + if cfg.propagate then {} else s.history.bad
  }

  /** What a live node no longer waits for, and can still be released, has ended. */
  ghost predicate Tracked(cfg: Config, s: State) {
    && s.waits.stuck.Keys == s.waits.pending.Keys && s.waits.pending.Keys <= s.waits.deps.Keys
    && (forall n <- s.waits.pending, d :: s.waits.pending[n][d] > 0 ==> d in s.waits.deps[n])
    && (forall n <- s.waits.pending, d <- s.waits.deps[n] ::
          s.waits.pending[n][d] > 0 || s.waits.stuck[n] > 0 || d in Released(cfg, s))
  }

  ghost predicate RanAfterAll(cfg: Config, s: State, n: NodeId) {
    n in s.waits.deps && forall d <- s.waits.deps[n] :: d in Released(cfg, s)
  }

  ghost predicate LostADependency(s: State, n: NodeId) {
    && n in s.waits.deps && n in s.waits.order.rank
    && exists d <- s.waits.deps[n] ::
         d in s.history.bad + s.history.cancelled && d in s.waits.order.rank && s.waits.order.rank[d] < s.waits.order.rank[n]
  }

  ghost predicate Ended(cfg: Config, s: State) {
    && (forall n <- s.history.done :: n !in cfg.fails && RanAfterAll(cfg, s, n))
    && (forall n <- s.history.bad :: n in cfg.fails && RanAfterAll(cfg, s, n))
    && (forall n <- s.history.cancelled :: cfg.propagate && LostADependency(s, n))
  }

  /** As long as every push found its dependencies live, live nodes wait for live nodes. */
  ghost predicate Grounded(s: State) {
    s.history.grounded ==> GraphRuns.WaitsForLive(s.waits)
  }

  /** Dependency safety: whatever is in a stage has all its dependencies behind it. */
  lemma ReadyMeansReleased(cfg: Config, s: State, id: NodeId)
    requires Sound(s) && Staged(s) && Tracked(cfg, s) && Stages(s, id) > 0
    ensures RanAfterAll(cfg, s, id)
  {
    assert Stages(s, id) == if id in Entry(s.graph) then 1 else 0;
    assert s.graph.indegree[id] == Total(s.waits, id);
    assert |s.waits.pending[id]| == 0 && s.waits.stuck[id] == 0;
    forall d <- s.waits.deps[id]
      ensures d in Released(cfg, s)
    {
      assert s.waits.pending[id] == multiset{};
    }
  }

  // ---------------------------------------------------------------- kept by every step

  lemma TrackedAfterAdd(cfg: Config, s: State, s': State)
    requires Tracked(cfg, s) && s.pusher.PAdding? && Added(s, s')
    ensures Tracked(cfg, s')
  {
    var id, deps, w, w' := s.pusher.req.node.id, s.pusher.req.deps, s.waits, s'.waits;
    forall n, d | n in w'.pending && w'.pending[n][d] > 0
      ensures d in w'.deps[n]
    {
      if n != id {
        assert w.pending[n][d] > 0;
      }
    }
    forall n, d | n in w'.pending && d in w'.deps[n]
      ensures w'.pending[n][d] > 0 || w'.stuck[n] > 0 || d in Released(cfg, s')
    {
      if n == id {
        assert multiset(deps)[d] > 0;
      } else {
        assert w.pending[n][d] > 0 || w.stuck[n] > 0 || d in Released(cfg, s);
      }
    }
  }

  lemma EndedAfterAdd(cfg: Config, s: State, s': State)
    requires Ended(cfg, s) && Partition(s) && s.pusher.PAdding? && Added(s, s')
    ensures Ended(cfg, s')
  {
    forall n <- s'.history.done + s'.history.bad
      ensures RanAfterAll(cfg, s', n)
    {
      assert RanAfterAll(cfg, s, n) && n in s.waits.order.rank.Keys;
    }
    forall n <- s'.history.cancelled
      ensures LostADependency(s', n)
    {
      assert LostADependency(s, n);
    }
  }

  lemma GroundedAfterAdd(s: State, s': State)
    requires Grounded(s) && s.pusher.PAdding? && Added(s, s') && s.waits.pending.Keys == s.graph.nodes.Keys
    ensures Grounded(s')
  {
    if s'.history.grounded {
      var id, deps, w, w' := s.pusher.req.node.id, s.pusher.req.deps, s.waits, s'.waits;
      forall n <- w'.pending
        ensures w'.stuck[n] == 0 && forall d :: w'.pending[n][d] > 0 ==> d in w'.pending
      {
        if n == id {
          assert forall d :: multiset(deps)[d] > 0 ==> d in deps;
        } else {
          assert w.pending[n][id] == 0;
        }
      }
    }
  }

  lemma TrackedAfterSettle(cfg: Config, s: State, i: nat, s': State, gone: set<NodeId>)
    requires Tracked(cfg, s) && i < |s.workers| && s.workers[i].WCounted? && Settled(cfg, s, i, s', gone)
    requires s'.waits.stuck.Keys == s'.waits.pending.Keys
    ensures Tracked(cfg, s')
  {
    var w, w' := s.waits, s'.waits;
    forall n, d | n in w'.pending && w'.pending[n][d] > 0
      ensures d in w'.deps[n]
    {
      assert w.pending[n][d] > 0;
    }
    forall n, d | n in w'.pending && d in w'.deps[n]
      ensures w'.pending[n][d] > 0 || w'.stuck[n] > 0 || d in Released(cfg, s')
    {
      assert w.pending[n][d] > 0 || w.stuck[n] > 0 || d in Released(cfg, s);
    }
  }

  lemma EndedAfterSettle(cfg: Config, s: State, i: nat, s': State, gone: set<NodeId>)
    requires Tracked(cfg, s) && Ended(cfg, s)
    requires i < |s.workers| && s.workers[i].WCounted? && Settled(cfg, s, i, s', gone)
    requires RanAfterAll(cfg, s, s.workers[i].id)
    ensures Ended(cfg, s')
  {
    var id := s.workers[i].id;
    forall n <- s'.history.done + s'.history.bad
      ensures RanAfterAll(cfg, s', n)
    {
      assert RanAfterAll(cfg, s, n);
    }
    forall n <- s'.history.cancelled
      ensures cfg.propagate && LostADependency(s', n)
    {
      if n in s.history.cancelled {
        assert LostADependency(s, n);
      } else {
        assert n in gone && WaitsForOneOf(s.waits, n, gone);
        var d :| d in gone && s.waits.pending[n][d] > 0 && d in s.waits.order.rank
                 && s.waits.order.rank[d] < s.waits.order.rank[n];
        assert d in s.waits.deps[n] && d in s'.history.bad + s'.history.cancelled;
      }
    }
  }

  lemma GroundedAfterSettle(cfg: Config, s: State, i: nat, s': State, gone: set<NodeId>)
    requires Grounded(s) && s.waits.pending.Keys == s.graph.nodes.Keys
    requires i < |s.workers| && s.workers[i].WCounted? && Settled(cfg, s, i, s', gone)
    requires s'.waits.stuck.Keys == s'.waits.pending.Keys == s'.graph.nodes.Keys
    ensures Grounded(s')
  {
    if s'.history.grounded {
      forall n, d | n in s'.waits.pending && s'.waits.pending[n][d] > 0
        ensures d in s'.waits.pending
      {
        assert s.waits.pending[n][d] > 0 && d !in gone;
      }
    }
  }

  lemma OutcomeFrame(cfg: Config, s: State, s': State)
    requires Tracked(cfg, s) && Ended(cfg, s) && Grounded(s) && SameNodes(s, s')
    ensures Tracked(cfg, s') && Ended(cfg, s') && Grounded(s')
  {
    assert Released(cfg, s') == Released(cfg, s);
    forall n, d | n in s'.waits.pending && d in s'.waits.deps[n]
      ensures s'.waits.pending[n][d] > 0 || s'.waits.stuck[n] > 0 || d in Released(cfg, s')
    {
      assert s.waits.pending[n][d] > 0 || s.waits.stuck[n] > 0 || d in Released(cfg, s);
    }
    forall n <- s.history.done + s.history.bad
      ensures RanAfterAll(cfg, s', n)
    {
      assert RanAfterAll(cfg, s, n);
    }
    forall n <- s.history.cancelled
      ensures LostADependency(s', n)
    {
      assert LostADependency(s, n);
    }
  }

  lemma OutcomeKept(cfg: Config, s: State, step: Step)
    requires Sound(s) && Staged(s) && Partition(s) && Tracked(cfg, s) && Ended(cfg, s) && Grounded(s)
    requires Enabled(cfg, s, step)
    ensures var s' := Next(cfg, s, step);
            Tracked(cfg, s') && Ended(cfg, s') && Grounded(s')
  {
    hide Staged, Partition, Tracked, Ended, Grounded, Refines, FreshRequests, NoNil, Added, Settled, Push, Listen, Launch,
         Begin, End, Callback, Control;
    var s' := Next(cfg, s, step);
    PendingIsLive(s.graph, s.waits);
    if step.PushAdd? {
      AddFacts(cfg, s);
      TrackedAfterAdd(cfg, s, s');
      EndedAfterAdd(cfg, s, s');
      GroundedAfterAdd(s, s');
    } else if step.WorkRemove? {
      var gone := SettleFacts(cfg, s, step.i);
      WorkSafe(cfg, s, step);
      SettledOutcome(cfg, s, step.i, s', gone);
    } else {
      NodesUntouched(cfg, s, step);
      OutcomeFrame(cfg, s, s');
    }
  }

  lemma PendingIsLive(g: Graph, w: Waits)
    requires Refines(g, w)
    ensures w.stuck.Keys == w.pending.Keys == g.nodes.Keys
  {
  }

  lemma SettledOutcome(cfg: Config, s: State, i: nat, s': State, gone: set<NodeId>)
    requires Sound(s) && Staged(s) && Tracked(cfg, s) && Ended(cfg, s) && Grounded(s)
    requires i < |s.workers| && s.workers[i].WCounted? && Settled(cfg, s, i, s', gone) && Refines(s'.graph, s'.waits)
    ensures Tracked(cfg, s') && Ended(cfg, s') && Grounded(s')
  {
    hide Refines, Staged, Tracked, Ended, Grounded, Settled, FreshRequests, RanAfterAll;
    var id := s.workers[i].id;
    assert Stages(s, id) > 0 by {
      HeldCounts(s.workers, i, id);
    }
    ReadyMeansReleased(cfg, s, id);
    PendingIsLive(s.graph, s.waits);
    PendingIsLive(s'.graph, s'.waits);
    TrackedAfterSettle(cfg, s, i, s', gone);
    EndedAfterSettle(cfg, s, i, s', gone);
    GroundedAfterSettle(cfg, s, i, s', gone);
  }
}
