/**
 Nodes pushed after one of their dependencies has ended. Nothing tells the graph that such a dependency is satisfied, so the
 node is never started; all other nodes are queued as soon as none of their dependencies is live.
 */
module RunnerLate {
  import opened Nodes
  import opened GraphModel
  import opened Waiting
  import GraphRuns
  import opened Runner
  import opened RunnerSafety
  import opened RunnerLedger
  import opened RunnerBooks
  import opened RunnerWorkers
  import opened RunnerOutcome
  import opened RunnerRuns
  import opened RunnerProgress

  /** `n` was added, has neither completed nor failed, and if it is live it is blocked. */
  ghost predicate Late(s: State, n: NodeId) {
    && n in s.waits.order.rank.Keys && n !in s.history.done && n !in s.history.bad
    && (n in s.graph.nodes.Keys ==> GraphRuns.Blocked(s.waits, n))
  }

  /** `n` waits exactly for those of its dependencies that are live. */
  ghost predicate InTime(s: State, n: NodeId, deps: seq<NodeId>) {
    && n in s.waits.order.rank.Keys && (forall d <- deps :: d in s.waits.order.rank)
    && (n in s.graph.nodes.Keys ==>
          && n in s.waits.pending && n in s.waits.stuck && s.waits.stuck[n] == 0
          && forall d :: s.waits.pending[n][d] == if d in s.graph.nodes.Keys then multiset(deps)[d] else 0)
  }

  // ---------------------------------------------------------------- when the node is added

  lemma LateAtFirst(cfg: Config, s: State)
    requires Sound(s) && Partition(s) && CanPush(cfg, s, PushAdd)
    requires exists d <- s.pusher.req.deps :: d !in s.graph.nodes.Keys
    ensures Late(Push(cfg, s, PushAdd), s.pusher.req.node.id)
  {
    var d :| d in s.pusher.req.deps && d !in s.graph.nodes.Keys;
    AddFacts(cfg, s);
    var s' := Push(cfg, s, PushAdd);
    assert s.waits.pending.Keys == s.graph.nodes.Keys by {
      PendingIsLive(s.graph, s.waits);
    }
    hide Sound, Push, Refines;
    LateAdded(s, s', d);
  }

  lemma LateAdded(s: State, s': State, d: NodeId)
    requires s.pusher.PAdding? && Added(s, s') && Partition(s) && s.waits.pending.Keys == s.graph.nodes.Keys
    requires d in s.pusher.req.deps && d !in s.graph.nodes.Keys
    ensures Late(s', s.pusher.req.node.id)
  {
    var n := s.pusher.req.node.id;
    assert d in s'.waits.pending[n] && d !in s'.waits.pending;
  }

  lemma InTimeAtFirst(cfg: Config, s: State)
    requires Sound(s) && CanPush(cfg, s, PushAdd)
    requires forall d <- s.pusher.req.deps :: d in s.graph.nodes.Keys
    ensures InTime(Push(cfg, s, PushAdd), s.pusher.req.node.id, s.pusher.req.deps)
  {
    AddFacts(cfg, s);
    assert s.graph.nodes.Keys <= s.waits.order.rank.Keys;
    var s' := Push(cfg, s, PushAdd);
    hide Sound, Push, Refines;
    InTimeAdded(s, s');
  }

  lemma InTimeAdded(s: State, s': State)
    requires s.pusher.PAdding? && Added(s, s') && s.graph.nodes.Keys <= s.waits.order.rank.Keys
    requires forall d <- s.pusher.req.deps :: d in s.graph.nodes.Keys
    ensures InTime(s', s.pusher.req.node.id, s.pusher.req.deps)
  {
    var deps := s.pusher.req.deps;
    assert forall d :: multiset(deps)[d] > 0 ==> d in deps;
  }

  // ---------------------------------------------------------------- kept by every step

  lemma LateAfterAdd(s: State, s': State, n: NodeId)
    requires s.pusher.PAdding? && Added(s, s') && Late(s, n)
    ensures Late(s', n)
  {
    var id, w, w' := s.pusher.req.node.id, s.waits, s'.waits;
    if n in s.graph.nodes.Keys && w.stuck[n] == 0 {
      var d :| d in w.pending[n] && d !in w.pending;
      if d != id {
        assert d in w'.pending[n] && d !in w'.pending;
      }
    }
  }

  lemma LateAfterSettle(cfg: Config, s: State, i: nat, s': State, gone: set<NodeId>, n: NodeId)
    requires i < |s.workers| && s.workers[i].WCounted? && Settled(cfg, s, i, s', gone) && Late(s, n)
    requires s.workers[i].id != n && s.waits.pending.Keys == s.graph.nodes.Keys
    requires s'.waits.pending.Keys == s'.waits.stuck.Keys == s'.graph.nodes.Keys
    ensures Late(s', n)
  {
    var id, w, w' := s.workers[i].id, s.waits, s'.waits;
    if n in s'.graph.nodes.Keys && w.stuck[n] == 0 {
      var d :| d in w.pending[n] && d !in w.pending;
      assert d in w'.pending[n] && d !in w'.pending;
    }
  }

  lemma InTimeAfterAdd(s: State, s': State, n: NodeId, deps: seq<NodeId>)
    requires s.pusher.PAdding? && Added(s, s') && InTime(s, n, deps)
    ensures InTime(s', n, deps)
  {
    assert s.pusher.req.node.id !in deps;
  }

  lemma InTimeAfterSettle(cfg: Config, s: State, i: nat, s': State, gone: set<NodeId>, n: NodeId, deps: seq<NodeId>)
    requires i < |s.workers| && s.workers[i].WCounted? && Settled(cfg, s, i, s', gone) && InTime(s, n, deps)
    requires s'.waits.pending.Keys == s'.waits.stuck.Keys == s'.graph.nodes.Keys
    ensures InTime(s', n, deps)
  {
  }

  /** The node whose callback runs is not blocked. */
  lemma SettledIsNotBlocked(s: State, i: nat)
    requires Sound(s) && Staged(s) && i < |s.workers| && s.workers[i].WCounted?
    ensures s.workers[i].id in s.graph.nodes && !GraphRuns.Blocked(s.waits, s.workers[i].id)
  {
    HeldIsEntry(s, i, s.workers[i].id);
    hide Refines, Staged, FreshRequests, NoNil;
    if GraphRuns.Blocked(s.waits, s.workers[i].id) {
      GraphRuns.BlockedIsNoEntry(s.graph, s.waits, s.workers[i].id);
    }
  }

  lemma LateStays(cfg: Config, s: State, step: Step, n: NodeId)
    requires Sound(s) && Staged(s) && Enabled(cfg, s, step) && Late(s, n)
    ensures Late(Next(cfg, s, step), n)
  {
    hide Staged, Late, Refines, FreshRequests, NoNil, Added, Settled, Push, Listen, Launch, Begin, End, Callback, Control,
         GraphRuns.Blocked;
    var s' := Next(cfg, s, step);
    PendingIsLive(s.graph, s.waits);
    if step.PushAdd? {
      AddFacts(cfg, s);
      LateAfterAdd(s, s', n);
    } else if step.WorkRemove? {
      var gone := SettleFacts(cfg, s, step.i);
      WorkSafe(cfg, s, step);
      PendingIsLive(s'.graph, s'.waits);
      SettledIsNotBlocked(s, step.i);
      LateIsBlocked(s, n);
      LateAfterSettle(cfg, s, step.i, s', gone, n);
    } else {
      NodesUntouched(cfg, s, step);
      LateFrame(s, s', n);
    }
  }

  lemma LateIsBlocked(s: State, n: NodeId)
    requires Late(s, n)
    ensures n in s.graph.nodes ==> GraphRuns.Blocked(s.waits, n)
  {
  }

  lemma LateFrame(s: State, s': State, n: NodeId)
    requires Late(s, n) && SameNodes(s, s')
    ensures Late(s', n)
  {
  }

  lemma InTimeStays(cfg: Config, s: State, step: Step, n: NodeId, deps: seq<NodeId>)
    requires Sound(s) && Staged(s) && Enabled(cfg, s, step) && InTime(s, n, deps)
    ensures InTime(Next(cfg, s, step), n, deps)
  {
    hide Staged, InTime, Refines, FreshRequests, NoNil, Added, Settled, Push, Listen, Launch, Begin, End, Callback, Control;
    var s' := Next(cfg, s, step);
    if step.PushAdd? {
      AddFacts(cfg, s);
      InTimeAfterAdd(s, s', n, deps);
    } else if step.WorkRemove? {
      var gone := SettleFacts(cfg, s, step.i);
      WorkSafe(cfg, s, step);
      PendingIsLive(s'.graph, s'.waits);
      InTimeAfterSettle(cfg, s, step.i, s', gone, n, deps);
    } else {
      NodesUntouched(cfg, s, step);
      InTimeFrame(s, s', n, deps);
    }
  }

  lemma InTimeFrame(s: State, s': State, n: NodeId, deps: seq<NodeId>)
    requires InTime(s, n, deps) && SameNodes(s, s')
    ensures InTime(s', n, deps)
  {
  }

  // ---------------------------------------------------------------- runs

  /** Both are kept by any further steps. */
  lemma {:induction false} KeptByMore(cfg: Config, steps: seq<Step>, more: seq<Step>, n: NodeId, deps: seq<NodeId>)
    requires Exec(cfg, steps + more).Some? && Exec(cfg, steps).Some?
    ensures Late(Exec(cfg, steps).value, n) ==> Late(Exec(cfg, steps + more).value, n)
    ensures InTime(Exec(cfg, steps).value, n, deps) ==> InTime(Exec(cfg, steps + more).value, n, deps)
    decreases |more|
  {
    hide Inv, Exec, Late, InTime, Enabled, Next;
    if more == [] {
      assert steps + more == steps;
    } else {
      var front, last := more[..|more| - 1], more[|more| - 1];
      assert more == front + [last];
      ExecMore(cfg, steps, front, last);
      KeptByMore(cfg, steps, front, n, deps);
      InvKeeps(cfg, Exec(cfg, steps + front).value, last, n, deps);
    }
  }

  lemma InvKeeps(cfg: Config, s: State, step: Step, n: NodeId, deps: seq<NodeId>)
    requires Inv(cfg, s) && Enabled(cfg, s, step)
    ensures Late(s, n) ==> Late(Next(cfg, s, step), n)
    ensures InTime(s, n, deps) ==> InTime(Next(cfg, s, step), n, deps)
  {
    hide Sound, Staged, Partition, NoneLost, Ledger, Enabled, Next, Late, InTime;
    if Late(s, n) {
      LateStays(cfg, s, step, n);
    }
    if InTime(s, n, deps) {
      InTimeStays(cfg, s, step, n, deps);
    }
  }

  /** The push listener is about to add this node, and one of its dependencies is not live. */
  ghost predicate AddsLate(s: State) {
    s.pusher.PAdding? && exists d <- s.pusher.req.deps :: d !in s.graph.nodes.Keys
  }

  lemma AddEnabled(cfg: Config, s: State)
    requires Sound(s) && s.pusher.PAdding?
    ensures Enabled(cfg, s, PushAdd) && Next(cfg, s, PushAdd) == Push(cfg, s, PushAdd)
  {
    hide Refines, FreshRequests, NoNil, Push;
  }

  lemma InvAdds(cfg: Config, s: State)
    requires Inv(cfg, s) && s.pusher.PAdding?
    ensures Enabled(cfg, s, PushAdd)
    ensures AddsLate(s) ==> Late(Next(cfg, s, PushAdd), s.pusher.req.node.id)
    ensures !AddsLate(s) ==> InTime(Next(cfg, s, PushAdd), s.pusher.req.node.id, s.pusher.req.deps)
  {
    hide Refines, FreshRequests, NoNil, Staged, Partition, Push, Next, Enabled, Late, InTime, NoneLost, Ledger;
    AddEnabled(cfg, s);
    if AddsLate(s) {
      LateAtFirst(cfg, s);
    } else {
      InTimeAtFirst(cfg, s);
    }
  }

  lemma AddedNow(cfg: Config, steps: seq<Step>)
    requires Exec(cfg, steps).Some? && Exec(cfg, steps).value.pusher.PAdding?
    ensures var s, r := Exec(cfg, steps).value, Exec(cfg, steps + [PushAdd]);
            && r.Some?
            && (AddsLate(s) ==> Late(r.value, s.pusher.req.node.id))
            && (!AddsLate(s) ==> InTime(r.value, s.pusher.req.node.id, s.pusher.req.deps))
  {
    hide Inv, Exec, Late, InTime, Next, Enabled, AddsLate;
    InvAdds(cfg, Exec(cfg, steps).value);
    assert steps + ([] + [PushAdd]) == steps + [PushAdd] && steps + [] == steps;
    ExecMore(cfg, steps, [], PushAdd);
  }

  /**
   The documented promise is that a node becomes ready when its dependencies are satisfied, whenever it is pushed. In every
   run, whatever happens after the push:
   a node pushed when some dependency was not live (because it had already ended, say) is never in any stage, never
   completes and never fails, and leaves the graph only when it is cancelled;
   any other node, as long as it is live, is in a stage if and only if none of its dependencies is live.
   */
  lemma StartedWhenSatisfied(cfg: Config, steps: seq<Step>, more: seq<Step>)
    requires Exec(cfg, steps).Some? && Exec(cfg, steps).value.pusher.PAdding?
    requires Exec(cfg, steps + [PushAdd] + more).Some?
    ensures var before, s := Exec(cfg, steps).value, Exec(cfg, steps + [PushAdd] + more).value;
            var n, deps := before.pusher.req.node.id, before.pusher.req.deps;
            && (AddsLate(before) ==>
                  && Stages(s, n) == 0 && n !in s.history.done && n !in s.history.bad
                  && (n in s.graph.nodes || n in s.history.cancelled))
            && (!AddsLate(before) && n in s.graph.nodes ==>
                  (Stages(s, n) == 1 <==> forall d <- deps :: d !in s.graph.nodes))
  {
    var before, s := Exec(cfg, steps).value, Exec(cfg, steps + [PushAdd] + more).value;
    var n, deps := before.pusher.req.node.id, before.pusher.req.deps;
    AddedNow(cfg, steps);
    KeptByMore(cfg, steps + [PushAdd], more, n, deps);
    hide Exec, Late, InTime, Stages, AddsLate;
    if AddsLate(before) {
      LateMeans(cfg, s, n);
    } else if n in s.graph.nodes {
      InTimeMeans(cfg, s, n, deps);
    }
  }

  lemma LateMeans(cfg: Config, s: State, n: NodeId)
    requires Inv(cfg, s) && Late(s, n)
    ensures Stages(s, n) == 0 && n !in s.history.done && n !in s.history.bad
    ensures n in s.graph.nodes || n in s.history.cancelled
  {
    assert Stages(s, n) == if n in Entry(s.graph) then 1 else 0;
    if n in s.graph.nodes.Keys {
      GraphRuns.BlockedIsNoEntry(s.graph, s.waits, n);
    } else {
      assert n in s.history.done + s.history.bad + s.history.cancelled;
    }
  }

  lemma InTimeMeans(cfg: Config, s: State, n: NodeId, deps: seq<NodeId>)
    requires Inv(cfg, s) && InTime(s, n, deps) && n in s.graph.nodes
    ensures Stages(s, n) == 1 <==> forall d <- deps :: d !in s.graph.nodes
  {
    assert Stages(s, n) == if n in Entry(s.graph) then 1 else 0;
    hide Stages, Staged, Partition, NoneLost, Ledger;
    GraphRuns.InTimeEntry(s.graph, s.waits, n, deps);
  }
}
