/** What the invariant means for whole runs. */
module RunnerTheorems {
  import opened Nodes
  import opened GraphModel
  import opened Waiting
  import GraphRuns
  import opened Runner
  import opened RunnerSafety
  import opened RunnerBooks
  import opened RunnerWorkers
  import opened RunnerOutcome
  import opened RunnerChannels
  import opened RunnerRuns
  import opened RunnerSlots

  // ---------------------------------------------------------------- safety of dispatch, workers and counters

  /** Whatever has left the ready channel for a worker is live, alone in its stage, and all its dependencies have ended. */
  lemma NothingStartsEarly(cfg: Config, steps: seq<Step>, id: NodeId)
    requires Exec(cfg, steps).Some? && Stages(Exec(cfg, steps).value, id) > 0
    ensures var s := Exec(cfg, steps).value;
            && Stages(s, id) == 1 && id in s.graph.nodes
            && forall d <- s.waits.deps[id] ::
                 d !in s.graph.nodes && (d in s.history.done || (!cfg.propagate && d in s.history.bad))
  {
    var s := Exec(cfg, steps).value;
    ReadyMeansReleased(cfg, s, id);
    assert Stages(s, id) == if id in Entry(s.graph) then 1 else 0;
    forall d <- s.waits.deps[id]
      ensures d !in s.graph.nodes && (d in s.history.done || (!cfg.propagate && d in s.history.bad))
    {
      assert d in Released(cfg, s) && d !in s.graph.nodes.Keys;
    }
  }

  /** The pool never reports more busy workers than it has, and no worker blocks on a node's result channel. */
  lemma WorkersNeverStall(cfg: Config, steps: seq<Step>)
    requires Exec(cfg, steps).Some?
    ensures var s := Exec(cfg, steps).value;
            && 0 <= s.books.busyWorkers <= cfg.workerCount
            && (forall id :: s.results[id] <= 1)
            && forall i: nat :: i < |s.workers| && s.workers[i].WBusy? ==> Enabled(cfg, s, WorkEmit(i))
  {
    var s := Exec(cfg, steps).value;
    BusyWithin(s.workers);
    NeverBlocksOnResult(cfg, s);
  }

  /**
   Between callbacks, under both strategies: completedCount is the number of nodes that left after success, failedCount
   that of those that left after their own failure or were cancelled, and together with the live nodes they are all nodes
   added.
   */
  lemma CountsConserved(cfg: Config, steps: seq<Step>)
    requires Exec(cfg, steps).Some?
    requires forall w <- Exec(cfg, steps).value.workers :: !w.WCounted? && !w.WCancelling?
    ensures var s := Exec(cfg, steps).value;
            && s.completed == |s.history.done|
            && s.failed == |s.history.bad| + |s.history.cancelled|
            && |s.waits.deps.Keys| == |s.graph.nodes.Keys| + s.completed + s.failed
  {
    var s := Exec(cfg, steps).value;
    LedgerExact(cfg, s);
    PartedSizes(s.waits.order.rank.Keys, s.graph.nodes.Keys, s.history.done, s.history.bad, s.history.cancelled);
    assert s.waits.deps.Keys == s.waits.order.rank.Keys;
  }

  lemma PartedSizes(added: set<NodeId>, live: set<NodeId>, done: set<NodeId>, bad: set<NodeId>, cancelled: set<NodeId>)
    requires Parted(added, live, done, bad, cancelled)
    ensures |added| == |live| + |done| + |bad| + |cancelled|
  {
  }

  // ---------------------------------------------------------------- verdicts

  /** A chain of dependencies, the first node an ancestor of the last. */
  ghost predicate IsChain(deps: map<NodeId, seq<NodeId>>, p: seq<NodeId>) {
    p != [] && forall i :: 0 < i < |p| ==> p[i] in deps && p[i - 1] in deps[p[i]]
  }

  ghost predicate AncestorsSucceed(deps: map<NodeId, seq<NodeId>>, fails: set<NodeId>, n: NodeId) {
    forall p: seq<NodeId> :: IsChain(deps, p) && |p| > 1 && p[|p| - 1] == n ==> p[0] !in fails
  }

  lemma {:induction false} ChainIntoDone(cfg: Config, s: State, p: seq<NodeId>)
    requires cfg.propagate && Ended(cfg, s) && IsChain(s.waits.deps, p) && p[|p| - 1] in s.history.done
    ensures p[0] !in cfg.fails
  {
    if |p| > 1 {
      var q := p[..|p| - 1];
      assert RanAfterAll(cfg, s, p[|p| - 1]) && p[|p| - 2] in s.waits.deps[p[|p| - 1]];
      ChainIntoDone(cfg, s, q);
    }
  }

  lemma RanAfterSuccess(cfg: Config, s: State, n: NodeId)
    requires cfg.propagate && Ended(cfg, s) && RanAfterAll(cfg, s, n)
    ensures AncestorsSucceed(s.waits.deps, cfg.fails, n)
  {
    forall p: seq<NodeId> | IsChain(s.waits.deps, p) && |p| > 1 && p[|p| - 1] == n
      ensures p[0] !in cfg.fails
    {
      var q := p[..|p| - 1];
      assert p[|p| - 2] in s.waits.deps[n];
      ChainIntoDone(cfg, s, q);
    }
  }

  lemma {:induction false} CancelledBelowFailure(cfg: Config, s: State, n: NodeId) returns (p: seq<NodeId>)
    requires Ended(cfg, s) && n in s.history.cancelled
    ensures IsChain(s.waits.deps, p) && |p| > 1 && p[|p| - 1] == n && p[0] in cfg.fails
    decreases if n in s.waits.order.rank then s.waits.order.rank[n] else 0
  {
    assert LostADependency(s, n);
    var d :| d in s.waits.deps[n] && d in s.history.bad + s.history.cancelled && d in s.waits.order.rank
             && s.waits.order.rank[d] < s.waits.order.rank[n];
    if d in s.history.bad {
      p := [d, n];
    } else {
      var q := CancelledBelowFailure(cfg, s, d);
      p := q + [n];
    }
  }

  /** How a node leaves the graph is decided by the dependencies and the outcomes of the work functions alone. */
  lemma VerdictIsDecided(cfg: Config, steps: seq<Step>, n: NodeId)
    requires cfg.propagate && Exec(cfg, steps).Some?
    requires n in Exec(cfg, steps).value.waits.deps && n !in Exec(cfg, steps).value.graph.nodes
    ensures var s := Exec(cfg, steps).value;
            var above := AncestorsSucceed(s.waits.deps, cfg.fails, n);
            && (n in s.history.done <==> n !in cfg.fails && above)
            && (n in s.history.bad <==> n in cfg.fails && above)
            && (n in s.history.cancelled <==> !above)
  {
    var s := Exec(cfg, steps).value;
    assert n in s.waits.order.rank.Keys && n !in s.graph.nodes.Keys;
    assert n in s.history.done + s.history.bad + s.history.cancelled;
    if n in s.history.cancelled {
      var p := CancelledBelowFailure(cfg, s, n);
    } else {
      RanAfterSuccess(cfg, s, n);
    }
  }

  /**
   Two runs that add the same nodes with the same dependencies and the same outcomes, whatever the pool sizes, buffer
   sizes, pauses and interleavings, and that both empty the graph, end every node in the same way.
   */
  lemma ScheduleIndependence(cfg1: Config, steps1: seq<Step>, cfg2: Config, steps2: seq<Step>)
    requires cfg1.propagate && cfg2.propagate && cfg1.fails == cfg2.fails
    requires Exec(cfg1, steps1).Some? && Exec(cfg2, steps2).Some?
    requires Exec(cfg1, steps1).value.waits.deps == Exec(cfg2, steps2).value.waits.deps
    requires Exec(cfg1, steps1).value.graph.nodes == map[] == Exec(cfg2, steps2).value.graph.nodes
    ensures var h1, h2 := Exec(cfg1, steps1).value.history, Exec(cfg2, steps2).value.history;
            h1.done == h2.done && h1.bad == h2.bad && h1.cancelled == h2.cancelled
  {
    forall n
      ensures SameEnd(Exec(cfg1, steps1).value, Exec(cfg2, steps2).value, n)
    {
      SameVerdict(cfg1, steps1, cfg2, steps2, n);
    }
    SameEnds(Exec(cfg1, steps1).value, Exec(cfg2, steps2).value);
  }

  ghost predicate SameEnd(s1: State, s2: State, n: NodeId) {
    && (n in s1.history.done <==> n in s2.history.done)
    && (n in s1.history.bad <==> n in s2.history.bad)
    && (n in s1.history.cancelled <==> n in s2.history.cancelled)
  }

  lemma SameEnds(s1: State, s2: State)
    requires forall n :: SameEnd(s1, s2, n)
    ensures s1.history.done == s2.history.done && s1.history.bad == s2.history.bad
    ensures s1.history.cancelled == s2.history.cancelled
  {
    forall n
      ensures n in s1.history.done <==> n in s2.history.done
      ensures n in s1.history.bad <==> n in s2.history.bad
      ensures n in s1.history.cancelled <==> n in s2.history.cancelled
    {
      assert SameEnd(s1, s2, n);
    }
  }

  lemma SameVerdict(cfg1: Config, steps1: seq<Step>, cfg2: Config, steps2: seq<Step>, n: NodeId)
    requires cfg1.propagate && cfg2.propagate && cfg1.fails == cfg2.fails
    requires Exec(cfg1, steps1).Some? && Exec(cfg2, steps2).Some?
    requires Exec(cfg1, steps1).value.waits.deps == Exec(cfg2, steps2).value.waits.deps
    requires Exec(cfg1, steps1).value.graph.nodes == map[] == Exec(cfg2, steps2).value.graph.nodes
    ensures SameEnd(Exec(cfg1, steps1).value, Exec(cfg2, steps2).value, n)
  {
    LeftIsAdded(cfg1, Exec(cfg1, steps1).value, n);
    LeftIsAdded(cfg2, Exec(cfg2, steps2).value, n);
    hide Inv, AncestorsSucceed, Exec;
    if n in Exec(cfg1, steps1).value.waits.deps {
      VerdictIsDecided(cfg1, steps1, n);
      VerdictIsDecided(cfg2, steps2, n);
    }
  }

  lemma LeftIsAdded(cfg: Config, s: State, n: NodeId)
    requires Inv(cfg, s)
    ensures n in s.history.done + s.history.bad + s.history.cancelled ==> n in s.waits.deps
  {
    assert s.waits.deps.Keys == s.waits.order.rank.Keys;
  }

  // ---------------------------------------------------------------- nothing gets stuck

  /** No step is left but those of clients and callers of Start and Pause. */
  ghost predicate Quiescent(cfg: Config, s: State) {
    forall step: Step | !step.Submit? && !step.Start? && !step.Pause? :: !Enabled(cfg, s, step)
  }

  lemma WorkersAllIdle(cfg: Config, s: State)
    requires Inv(cfg, s) && Quiescent(cfg, s) && cfg.workerCount > 0
    ensures s.pool == [] && forall w <- s.workers :: w.WIdle?
  {
    hide Enabled, Sound, Staged, Partition, Ledger, Tracked, Ended, Grounded, Backpressure, Covered;
    NeverBlocksOnResult(cfg, s);
    forall i | 0 <= i < |s.workers|
      ensures s.workers[i].WIdle? && s.pool == []
    {
      WorkerCanMove(cfg, s, i);
    }
    assert s.workers[0].WIdle?;
  }

  lemma NoWork(cfg: Config, s: State, step: Step)
    requires Quiescent(cfg, s)
    ensures !CanWork(cfg, s, step)
  {
    if CanWork(cfg, s, step) {
      assert Enabled(cfg, s, step);
    }
  }

  lemma WorkerCanMove(cfg: Config, s: State, i: nat)
    requires Quiescent(cfg, s) && i < |s.workers|
    requires s.workers[i].WBusy? ==> CanWork(cfg, s, WorkEmit(i))
    ensures s.workers[i].WIdle? && s.pool == []
  {
    hide Quiescent;
    NoWork(cfg, s, WorkTake(i));
    NoWork(cfg, s, WorkMark(i));
    NoWork(cfg, s, WorkEmit(i));
    NoWork(cfg, s, WorkCount(i));
    NoWork(cfg, s, WorkRemove(i));
    NoWork(cfg, s, WorkCancel(i));
    NoWork(cfg, s, WorkNotify(i));
    NoWork(cfg, s, WorkFinish(i));
  }

  lemma PipelineEmpty(cfg: Config, s: State)
    requires Quiescent(cfg, s) && s.pool == [] && cfg.launchCap > 0 && cfg.poolCap > 0 && !s.listener.LCrashed?
    requires !s.paused && |s.heap| <= Signals(s)
    ensures s.graph.ready == [] && s.listener.LIdle? && s.heap == multiset{} && s.launcher.CIdle?
  {
    LauncherIdle(cfg, s);
    assert !Enabled(cfg, s, LaunchTake) && !Enabled(cfg, s, StartSignal);
    assert !Enabled(cfg, s, ListenTake) && !Enabled(cfg, s, ListenQueue) && !Enabled(cfg, s, ListenSignal);
    assert |s.heap| == 0;
  }

  lemma LauncherIdle(cfg: Config, s: State)
    requires Quiescent(cfg, s) && s.pool == [] && cfg.poolCap > 0
    ensures s.launcher.CIdle?
  {
    assert !Enabled(cfg, s, LaunchPauseCheck) && !Enabled(cfg, s, LaunchGrant) && !Enabled(cfg, s, LaunchDispatch);
    assert !Enabled(cfg, s, LaunchCount);
    if s.launcher.CAwake? {
      assert !Enabled(cfg, s, LaunchEmpty);
      var id := Largest(s, s.heap);
      var pop := LaunchPop(id);
      assert CanLaunch(cfg, s, pop) && !pop.Submit? && !pop.Start? && !pop.Pause?;
      assert false;
    }
  }

  lemma {:induction false} Largest(s: State, heap: multiset<NodeId>) returns (id: NodeId)
    requires heap != multiset{}
    ensures id in heap && forall x <- heap :: Priority(s, x) <= Priority(s, id)
    decreases |heap|
  {
    id :| id in heap;
    var rest := heap - multiset{id};
    assert heap == rest + multiset{id};
    if rest != multiset{} {
      var other := Largest(s, rest);
      if Priority(s, other) > Priority(s, id) {
        id := other;
      }
    }
  }

  lemma {:induction false} NobodyHolds(ws: seq<Worker>, id: NodeId)
    requires forall w <- ws :: w.WIdle?
    ensures InWorkers(ws, id) == 0
  {
    if ws != [] {
      assert ws[|ws| - 1] in ws;
      NobodyHolds(ws[..|ws| - 1], id);
    }
  }

  lemma NoEntry(s: State)
    requires Staged(s) && (forall w <- s.workers :: w.WIdle?) && s.pool == []
    requires s.graph.ready == [] && s.listener.LIdle? && s.heap == multiset{} && s.launcher.CIdle?
    ensures Entry(s.graph) == {}
  {
    hide Entry;
    forall id
      ensures id !in Entry(s.graph)
    {
      NobodyHolds(s.workers, id);
      assert Stages(s, id) == if id in Entry(s.graph) then 1 else 0;
    }
  }

  /**
   `n` waits, directly or through other live nodes, for a dependency that was not live when the node depending on it was
   added.
   */
  ghost predicate BehindBlocked(w: Waits, n: NodeId) {
    exists p: seq<NodeId> :: LeadsToBlocked(w, p) && p[0] == n
  }

  ghost predicate WaitsOn(w: Waits, n: NodeId, d: NodeId) {
    n in w.pending && w.pending[n][d] > 0
  }

  ghost predicate LeadsToBlocked(w: Waits, p: seq<NodeId>) {
    && p != [] && GraphRuns.Blocked(w, p[|p| - 1])
    && forall i :: 0 <= i < |p| - 1 ==> WaitsOn(w, p[i], p[i + 1])
  }

  lemma OneFurther(w: Waits, n: NodeId, p: seq<NodeId>)
    requires LeadsToBlocked(w, p) && WaitsOn(w, n, p[0])
    ensures LeadsToBlocked(w, [n] + p)
  {
    var q := [n] + p;
    assert q[|q| - 1] == p[|p| - 1];
    forall i | 0 <= i < |q| - 1
      ensures WaitsOn(w, q[i], q[i + 1])
    {
      if i > 0 {
        assert q[i] == p[i - 1] && q[i + 1] == p[i - 1 + 1];
      }
    }
  }

  /** In a graph without an entry point, every node waits behind a blocked one. */
  lemma {:induction false} NoEntryAllBehind(g: Graph, w: Waits, n: NodeId) returns (p: seq<NodeId>)
    requires Refines(g, w) && Entry(g) == {} && n in g.nodes
    ensures LeadsToBlocked(w, p) && p[0] == n
    decreases if n in w.order.rank then w.order.rank[n] else 0
  {
    hide Refines, Entry, GraphRuns.Blocked;
    if GraphRuns.Blocked(w, n) {
      p := [n];
    } else {
      var d := WaitsForSomeone(g, w, n);
      var rest := NoEntryAllBehind(g, w, d);
      OneFurther(w, n, rest);
      p := [n] + rest;
    }
  }

  lemma WaitsForSomeone(g: Graph, w: Waits, n: NodeId) returns (d: NodeId)
    requires Refines(g, w) && Entry(g) == {} && n in g.nodes && !GraphRuns.Blocked(w, n)
    ensures d in g.nodes && WaitsOn(w, n, d)
    ensures d in w.order.rank && n in w.order.rank && w.order.rank[d] < w.order.rank[n]
  {
    assert n !in Entry(g) && g.indegree[n] == Total(w, n);
    assert w.pending[n] != multiset{};
    d :| d in w.pending[n];
    GraphRuns.WaitedIsOlder(g, w, n, d);
  }

  /** With every dependency live when its node was added, nobody is behind a blocked node. */
  lemma NobodyBehind(w: Waits, n: NodeId)
    requires GraphRuns.WaitsForLive(w)
    ensures !BehindBlocked(w, n)
  {
  }

  // ---------------------------------------------------------------- where the scheduler comes to rest

  /**
   Nobody is paused and every queued node has a signal, for one of two reasons: the last resume dropped none, or the
   launchpad has room for the whole queue.
   */
  ghost predicate Served(cfg: Config, s: State) {
    s.history.covered || (!s.paused && Roomy(cfg, s))
  }

  lemma ServedHasSignals(cfg: Config, steps: seq<Step>)
    requires Exec(cfg, steps).Some? && Served(cfg, Exec(cfg, steps).value)
    ensures var s := Exec(cfg, steps).value; !s.paused && |s.heap| <= Signals(s)
  {
    EveryRunHasSlots(cfg, steps);
    var s := Exec(cfg, steps).value;
    assert Covered(s);
  }

  lemma RestIsEmpty(cfg: Config, s: State)
    requires cfg.launchCap > 0 && cfg.poolCap > 0 && cfg.workerCount > 0
    requires Inv(cfg, s) && Quiescent(cfg, s) && !s.paused && |s.heap| <= Signals(s)
    ensures Entry(s.graph) == {} && s.pool == [] && forall w <- s.workers :: w.WIdle?
  {
    hide Quiescent, Refines, FreshRequests, NoneLost, Ledger, Tracked, Ended, Grounded, Backpressure, Covered, Entry,
         WorkersCounted, ResultsSent, Partition, Staged;
    WorkersAllIdle(cfg, s);
    PipelineEmpty(cfg, s);
    NoEntry(s);
  }

  /**
   No deadlock and no lost node, for nodes with any dependencies: when no actor can move any more, a node is still live
   only if it, or a live node it waits for, was added with a dependency that was not live.
   */
  lemma OnlyBlockedLeft(cfg: Config, steps: seq<Step>, n: NodeId)
    requires cfg.launchCap > 0 && cfg.poolCap > 0 && cfg.workerCount > 0
    requires Exec(cfg, steps).Some? && Quiescent(cfg, Exec(cfg, steps).value) && Served(cfg, Exec(cfg, steps).value)
    requires n in Exec(cfg, steps).value.graph.nodes
    ensures BehindBlocked(Exec(cfg, steps).value.waits, n)
  {
    hide Quiescent, Refines, Staged, Entry, Partition, NoneLost, Ledger, Tracked, Ended, Grounded, Backpressure, Covered;
    var s := Exec(cfg, steps).value;
    ServedHasSignals(cfg, steps);
    RestIsEmpty(cfg, s);
    var p := NoEntryAllBehind(s.graph, s.waits, n);
  }

  /**
   So if every dependency was live when its node was pushed, then when no actor can move any more, every submitted node
   has left the graph.
   */
  lemma NothingLeftBehind(cfg: Config, steps: seq<Step>)
    requires cfg.launchCap > 0 && cfg.poolCap > 0 && cfg.workerCount > 0
    requires Exec(cfg, steps).Some? && Quiescent(cfg, Exec(cfg, steps).value) && Served(cfg, Exec(cfg, steps).value)
    requires Exec(cfg, steps).value.history.grounded
    ensures var s := Exec(cfg, steps).value;
            && s.graph.nodes == map[] && s.pushChan == [] && s.pusher.PIdle?
            && s.history.submitted == s.waits.deps.Keys == s.history.done + s.history.bad + s.history.cancelled
            && s.completed == |s.history.done| && s.failed == |s.history.bad| + |s.history.cancelled|
            && s.completed + s.failed == |s.waits.deps.Keys|
  {
    var s := Exec(cfg, steps).value;
    hide Quiescent, Refines, Staged, FreshRequests, Tracked, Ended, WorkersCounted, ResultsSent, Served, BehindBlocked,
         GraphRuns.WaitsForLive, Entry;
    ServedHasSignals(cfg, steps);
    RestIsEmpty(cfg, s);
    if n :| n in s.graph.nodes {
      OnlyBlockedLeft(cfg, steps, n);
      NobodyBehind(s.waits, n);
    }
    assert s.graph.nodes == map[];
    PusherIdle(cfg, s);
    CountsConserved(cfg, steps);
    AllLeft(cfg, s);
  }

  lemma AllLeft(cfg: Config, s: State)
    requires Inv(cfg, s) && s.graph.nodes == map[] && s.pushChan == [] && s.pusher.PIdle?
    ensures s.history.submitted == s.waits.deps.Keys == s.history.done + s.history.bad + s.history.cancelled
  {
    hide Staged, NoNil, Ledger, WorkersCounted, ResultsSent, Tracked, Ended, Grounded, Backpressure, Covered, Counted,
         DeadBelowZero;
    assert s.waits.deps.Keys == s.waits.order.rank.Keys;
    assert Requests(s) == [];
  }

  lemma NoneAboutToNotify(ws: seq<Worker>)
    requires forall w <- ws :: w.WIdle?
    ensures !AboutToNotify(ws)
  {
    forall i | 0 <= i < |ws|
      ensures !ws[i].WCancelling? && !ws[i].WNotifying?
    {
      assert ws[i] in ws;
    }
  }

  lemma PusherIdle(cfg: Config, s: State)
    requires Quiescent(cfg, s) && Backpressure(cfg, s) && s.graph.nodes == map[]
    requires forall w <- s.workers :: w.WIdle?
    ensures s.pusher.PIdle? && s.pushChan == []
  {
    assert !Enabled(cfg, s, PushTake) && !Enabled(cfg, s, PushCheck) && !Enabled(cfg, s, PushWake);
    assert !Enabled(cfg, s, PushAdd);
    NoneAboutToNotify(s.workers);
    assert !Full(cfg, s);
  }
}
