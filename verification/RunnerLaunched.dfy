/** `launchedCount`, and how nodes end when failures are isolated. */
module RunnerLaunched {
  import opened Nodes
  import opened GraphModel
  import opened Waiting
  import opened Runner
  import opened RunnerSafety
  import opened RunnerLedger
  import opened RunnerBooks
  import opened RunnerOutcome
  import opened RunnerRuns

  /** Whether the worker holds a node that is still in the graph. */
  function Busy(w: Worker): nat {
    if w.WGot? || w.WBusy? || w.WEmitted? || w.WCounted? then 1 else 0
  }

  /** Every node launched is in the pool, on a worker, or has completed or failed by itself. */
  ghost predicate Launched(s: State) {
    s.launched + (if s.launcher.CDispatched? then 1 else 0)
    == |s.pool| + SumOf(s.workers, Busy) + |s.history.done| + |s.history.bad|
  }

  lemma LaunchedAfterLaunch(cfg: Config, s: State, step: Step)
    requires Launched(s) && CanLaunch(cfg, s, step)
    ensures Launched(Launch(cfg, s, step))
  {
  }

  lemma LaunchedAfterMove(s: State, s': State, i: nat, w: Worker)
    requires Launched(s) && i < |s.workers| && s'.workers == s.workers[i := w] && s'.history == s.history
    requires s'.launched == s.launched && s'.launcher == s.launcher
    requires |s'.pool| + Busy(w) == |s.pool| + Busy(s.workers[i])
    ensures Launched(s')
  {
    SumOfUpdate(s.workers, i, w, Busy);
  }

  lemma LaunchedAfterWork(cfg: Config, s: State, step: Step)
    requires Launched(s) && CanWork(cfg, s, step) && (IsBegin(step) || IsEnd(step))
    ensures Launched(if IsBegin(step) then Begin(cfg, s, step) else End(cfg, s, step))
  {
    hide Launched;
    var s' := if IsBegin(step) then Begin(cfg, s, step) else End(cfg, s, step);
    LaunchedAfterMove(s, s', step.i, s'.workers[step.i]);
  }

  lemma LaunchedAfterSettle(cfg: Config, s: State, i: nat, s': State, gone: set<NodeId>)
    requires Launched(s) && Partition(s) && i < |s.workers| && s.workers[i].WCounted? && Settled(cfg, s, i, s', gone)
    ensures Launched(s')
  {
    SetsGrow(cfg, s, i, s', gone);
    SumOfUpdate(s.workers, i, WCancelling(|gone| - 1), Busy);
    assert s'.workers == s.workers[i := WCancelling(|gone| - 1)] && s'.pool == s.pool;
    assert s'.launched == s.launched && s'.launcher == s.launcher;
    hide Settled, Partition;
  }

  lemma LaunchedFrame(s: State, s': State)
    requires Launched(s) && s'.launched == s.launched && s'.launcher == s.launcher && s'.pool == s.pool
    requires s'.workers == s.workers && s'.history.done == s.history.done && s'.history.bad == s.history.bad
    ensures Launched(s')
  {
  }

  lemma PushLaunched(cfg: Config, s: State, step: Step)
    requires Refines(s.graph, s.waits) && Launched(s) && CanPush(cfg, s, step)
    ensures Launched(Push(cfg, s, step))
  {
    hide Refines, Add, AddWaits, Launched;
    LaunchedFrame(s, Push(cfg, s, step));
  }

  lemma ListenLaunched(cfg: Config, s: State, step: Step)
    requires Launched(s) && CanListen(cfg, s, step)
    ensures Launched(Listen(cfg, s, step))
  {
    hide Launched;
    LaunchedFrame(s, Listen(cfg, s, step));
  }

  lemma ControlLaunched(cfg: Config, s: State, step: Step)
    requires Launched(s) && CanControl(cfg, s, step)
    ensures Launched(Control(cfg, s, step))
  {
    hide Launched;
    LaunchedFrame(s, Control(cfg, s, step));
  }

  lemma LaunchedKept(cfg: Config, s: State, step: Step)
    requires Sound(s) && Staged(s) && Partition(s) && Launched(s) && Enabled(cfg, s, step)
    ensures Launched(Next(cfg, s, step))
  {
    hide Refines, Staged, Partition, Launched, Settled, FreshRequests, NoNil, Push, Listen, Launch, Begin, End, Callback, Control,
         CanPush, CanListen, CanLaunch, CanControl;
    if CanPush(cfg, s, step) {
      PushLaunched(cfg, s, step);
    } else if CanListen(cfg, s, step) {
      ListenLaunched(cfg, s, step);
    } else if CanLaunch(cfg, s, step) {
      LaunchedAfterLaunch(cfg, s, step);
    } else if CanWork(cfg, s, step) {
      if IsBegin(step) || IsEnd(step) {
        LaunchedAfterWork(cfg, s, step);
      } else {
        var gone := SettleFacts(cfg, s, step.i);
        LaunchedAfterSettle(cfg, s, step.i, Callback(cfg, s, step.i), gone);
      }
    } else {
      ControlLaunched(cfg, s, step);
    }
  }

  lemma InvLaunched(cfg: Config, s: State, step: Step)
    requires Inv(cfg, s) && Launched(s) && Enabled(cfg, s, step)
    ensures Launched(Next(cfg, s, step))
  {
    hide Sound, Staged, Partition, Enabled, Next, Launched;
    LaunchedKept(cfg, s, step);
  }

  lemma {:induction false} NobodyBusy(ws: seq<Worker>)
    requires forall w <- ws :: w.WIdle?
    ensures SumOf(ws, Busy) == 0
  {
    SumOfZero(ws, Busy);
  }

  /** In every run, each node launched is counted once, whatever becomes of it. */
  lemma {:induction false} EveryRunCountsLaunches(cfg: Config, steps: seq<Step>)
    requires Exec(cfg, steps).Some?
    ensures Launched(Exec(cfg, steps).value)
  {
    if steps == [] {
      NobodyBusy(Init(cfg).workers);
    } else {
      hide Inv, Enabled, Next, Launched;
      EveryRunCountsLaunches(cfg, steps[..|steps| - 1]);
      InvLaunched(cfg, Exec(cfg, steps[..|steps| - 1]).value, steps[|steps| - 1]);
    }
  }

  /** Where failures are isolated, every node that has left ran, and failed exactly if its own work function did. */
  lemma IsolatedVerdict(cfg: Config, steps: seq<Step>, n: NodeId)
    requires !cfg.propagate && Exec(cfg, steps).Some?
    requires n in Exec(cfg, steps).value.waits.deps && n !in Exec(cfg, steps).value.graph.nodes
    ensures var h := Exec(cfg, steps).value.history;
            && h.cancelled == {}
            && (n in h.done <==> n !in cfg.fails)
            && (n in h.bad <==> n in cfg.fails)
  {
    var s := Exec(cfg, steps).value;
    assert n in s.waits.order.rank.Keys && n !in s.graph.nodes.Keys;
    assert n in s.history.done + s.history.bad + s.history.cancelled;
  }
}
