/**
 Signals enough for everyone. As long as the launchpad has a slot for every node that can be queued at the same time,
 every queued node has a signal whenever the scheduler is not paused, whatever the resend loops drop.
 */
module RunnerSlots {
  import opened Nodes
  import opened GraphModel
  import opened Waiting
  import opened Runner
  import opened RunnerSafety
  import opened RunnerLedger
  import opened RunnerBooks
  import opened RunnerWorkers
  import opened RunnerOutcome
  import opened RunnerChannels
  import opened RunnerRuns

  /** What a caller can see to: a graph no larger than the launchpad, or no more nodes than slots. */
  predicate Roomy(cfg: Config, s: State) {
    0 < cfg.maxGraphSize <= cfg.launchCap || |s.history.submitted| <= cfg.launchCap
  }

  ghost predicate Slots(cfg: Config, s: State) {
    s.launchpad <= cfg.launchCap && (!s.paused && Roomy(cfg, s) ==> |s.heap| <= Signals(s))
  }

  // ---------------------------------------------------------------- the queue is no larger than the graph

  lemma {:induction false} MultisetWithin<T>(m: multiset<T>, a: set<T>)
    requires forall x :: m[x] <= if x in a then 1 else 0
    ensures |m| <= |a|
    decreases |a|
  {
    if x :| x in m {
      assert m == m - multiset{x} + multiset{x};
      MultisetWithin(m - multiset{x}, a - {x});
    }
  }

  lemma HeapWithinGraph(s: State)
    requires Staged(s)
    ensures |s.heap| <= |s.graph.nodes.Keys|
  {
    assert Entry(s.graph) <= s.graph.nodes.Keys;
    SubsetSize(Entry(s.graph), s.graph.nodes.Keys);
    hide Entry;
    forall id
      ensures s.heap[id] <= if id in Entry(s.graph) then 1 else 0
    {
      assert Stages(s, id) == if id in Entry(s.graph) then 1 else 0;
    }
    MultisetWithin(s.heap, Entry(s.graph));
  }

  lemma GraphWithinSubmitted(s: State)
    requires Partition(s) && FreshRequests(s)
    ensures |s.graph.nodes.Keys| <= |s.history.submitted|
  {
    SubsetSize(s.graph.nodes.Keys, s.history.submitted);
  }

  lemma HeapFits(cfg: Config, s: State)
    requires Inv(cfg, s) && Roomy(cfg, s)
    ensures |s.heap| <= cfg.launchCap
  {
    hide Refines, Staged, FreshRequests, NoneLost, Ledger, WorkersCounted, ResultsSent, Tracked, Ended, Grounded, Partition;
    HeapWithinGraph(s);
    GraphWithinSubmitted(s);
  }

  // ---------------------------------------------------------------- every step

  lemma SlotsAfterControl(cfg: Config, s: State, step: Step)
    requires Slots(cfg, s) && CanControl(cfg, s, step) && (Roomy(cfg, s) ==> |s.heap| <= cfg.launchCap)
    ensures Slots(cfg, Control(cfg, s, step))
  {
  }

  lemma SlotsAfterListen(cfg: Config, s: State, step: Step)
    requires Slots(cfg, s) && CanListen(cfg, s, step)
    ensures Slots(cfg, Listen(cfg, s, step))
  {
  }

  lemma SlotsAfterLaunch(cfg: Config, s: State, step: Step)
    requires Slots(cfg, s) && CanLaunch(cfg, s, step)
    ensures Slots(cfg, Launch(cfg, s, step))
  {
  }

  /** Nothing on the launch side moves, and no submission is forgotten. */
  lemma SlotsFrame(cfg: Config, s: State, s': State)
    requires Slots(cfg, s) && s.history.submitted <= s'.history.submitted
    requires s'.launchpad == s.launchpad && s'.owed == s.owed && s'.listener == s.listener && s'.launcher == s.launcher
    requires s'.heap == s.heap && s'.paused == s.paused
    ensures Slots(cfg, s')
  {
    SubsetSize(s.history.submitted, s'.history.submitted);
  }

  lemma SlotsAfterPush(cfg: Config, s: State, step: Step)
    requires Refines(s.graph, s.waits) && Slots(cfg, s) && CanPush(cfg, s, step)
    ensures Slots(cfg, Push(cfg, s, step))
  {
    hide Refines, Add, AddWaits, Slots;
    SlotsFrame(cfg, s, Push(cfg, s, step));
  }

  lemma SlotsAfterSettle(cfg: Config, s: State, i: nat, s': State, gone: set<NodeId>)
    requires Slots(cfg, s) && i < |s.workers| && s.workers[i].WCounted? && Settled(cfg, s, i, s', gone)
    ensures Slots(cfg, s')
  {
    hide Discharged, Slots;
    SlotsFrame(cfg, s, s');
  }

  lemma SlotsAfterBegin(cfg: Config, s: State, step: Step)
    requires Slots(cfg, s) && CanWork(cfg, s, step) && IsBegin(step)
    ensures Slots(cfg, Begin(cfg, s, step))
  {
    hide Slots;
    SlotsFrame(cfg, s, Begin(cfg, s, step));
  }

  lemma SlotsAfterEnd(cfg: Config, s: State, step: Step)
    requires Slots(cfg, s) && CanWork(cfg, s, step) && IsEnd(step)
    ensures Slots(cfg, End(cfg, s, step))
  {
    hide Slots;
    SlotsFrame(cfg, s, End(cfg, s, step));
  }

  lemma SlotsAfterWork(cfg: Config, s: State, step: Step)
    requires Sound(s) && Staged(s) && Slots(cfg, s) && CanWork(cfg, s, step)
    ensures Slots(cfg, Work(cfg, s, step))
  {
    hide Staged, Refines, Slots, FreshRequests, NoNil, Begin, End, Callback, Settled;
    if IsBegin(step) {
      SlotsAfterBegin(cfg, s, step);
    } else if IsEnd(step) {
      SlotsAfterEnd(cfg, s, step);
    } else {
      var gone := SettleFacts(cfg, s, step.i);
      SlotsAfterSettle(cfg, s, step.i, Callback(cfg, s, step.i), gone);
    }
  }

  lemma SlotsKept(cfg: Config, s: State, step: Step)
    requires Sound(s) && Staged(s) && Slots(cfg, s) && (Roomy(cfg, s) ==> |s.heap| <= cfg.launchCap) && Enabled(cfg, s, step)
    ensures Slots(cfg, Next(cfg, s, step))
  {
    hide Refines, Staged, Slots, Roomy, FreshRequests, NoNil, Push, Listen, Launch, Work, Control,
         CanPush, CanListen, CanLaunch, CanWork, CanControl;
    if CanPush(cfg, s, step) {
      SlotsAfterPush(cfg, s, step);
    } else if CanListen(cfg, s, step) {
      SlotsAfterListen(cfg, s, step);
    } else if CanLaunch(cfg, s, step) {
      SlotsAfterLaunch(cfg, s, step);
    } else if CanWork(cfg, s, step) {
      SlotsAfterWork(cfg, s, step);
    } else {
      SlotsAfterControl(cfg, s, step);
    }
  }

  lemma InvSlots(cfg: Config, s: State, step: Step)
    requires Inv(cfg, s) && Slots(cfg, s) && Enabled(cfg, s, step)
    ensures Slots(cfg, Next(cfg, s, step))
  {
    if Roomy(cfg, s) {
      HeapFits(cfg, s);
    }
    hide Sound, Staged, Partition, NoneLost, Ledger, Enabled, Next, Slots, Roomy;
    SlotsKept(cfg, s, step);
  }

  /**
   In every run, with any pauses and resumes, any interleaving and any signals dropped: where the launchpad has room for
   the whole queue, and nobody is paused, there is a signal for each queued node.
   */
  lemma {:induction false} EveryRunHasSlots(cfg: Config, steps: seq<Step>)
    requires Exec(cfg, steps).Some?
    ensures Slots(cfg, Exec(cfg, steps).value)
  {
    hide Inv, Enabled, Next;
    if steps != [] {
      EveryRunHasSlots(cfg, steps[..|steps| - 1]);
      InvSlots(cfg, Exec(cfg, steps[..|steps| - 1]).value, steps[|steps| - 1]);
    }
  }
}
