/** Every run: the invariants together, and what follows from them for whole runs. */
module RunnerRuns {
  import opened Nodes
  import opened GraphModel
  import opened Waiting
  import opened Runner
  import opened RunnerSafety
  import opened RunnerBooks
  import opened RunnerWorkers
  import opened RunnerOutcome
  import opened RunnerChannels

  ghost predicate Inv(cfg: Config, s: State) {
    && Sound(s) && Staged(s)
    && Partition(s) && NoneLost(s) && Ledger(cfg, s)
    && WorkersCounted(cfg, s) && ResultsSent(s)
    && Tracked(cfg, s) && Ended(cfg, s) && Grounded(s)
    && Backpressure(cfg, s) && Covered(s)
  }

  lemma {:induction false} IdleWorkers(n: nat, fails: set<NodeId>)
    ensures var ws := seq(n, _ => WIdle);
            && SumOf(ws, Tallied(fails, false)) == 0 && SumOf(ws, Tallied(fails, true)) == 0 && SumOf(ws, Left) == 0 && SumOf(ws, Marked) == 0
            && forall id :: InWorkers(ws, id) == 0 && EmittedBy(ws, id) == 0
  {
    var ws := seq(n, _ => WIdle);
    if n > 0 {
      IdleWorkers(n - 1, fails);
      assert ws[..n - 1] == seq(n - 1, _ => WIdle);
    }
  }

  lemma InitSound(cfg: Config)
    ensures Sound(Init(cfg)) && Staged(Init(cfg))
  {
    IdleWorkers(cfg.workerCount, cfg.fails);
  }

  lemma InitInv(cfg: Config)
    ensures Inv(cfg, Init(cfg))
  {
    IdleWorkers(cfg.workerCount, cfg.fails);
    InitSound(cfg);
    hide Sound, Staged;
  }

  lemma NextInv(cfg: Config, s: State, step: Step)
    requires Inv(cfg, s) && Enabled(cfg, s, step)
    ensures Inv(cfg, Next(cfg, s, step))
  {
    hide Sound, Staged, Partition, NoneLost, Ledger, WorkersCounted, ResultsSent, Tracked, Ended, Grounded, Backpressure, Covered;
    SafeKept(cfg, s, step);
    PartitionKept(cfg, s, step);
    NoneLostKept(cfg, s, step);
    LedgerKept(cfg, s, step);
    WorkersKept(cfg, s, step);
    ResultsKept(cfg, s, step);
    OutcomeKept(cfg, s, step);
    BackpressureKept(cfg, s, step);
    CoveredKept(cfg, s, step);
  }

  lemma SafeKept(cfg: Config, s: State, step: Step)
    requires Sound(s) && Staged(s) && Enabled(cfg, s, step)
    ensures Sound(Next(cfg, s, step)) && Staged(Next(cfg, s, step))
  {
    hide Refines, Staged, FreshRequests, NoNil, Push, Listen, Launch, Work, Control,
         CanPush, CanListen, CanLaunch, CanWork, CanControl;
    if CanPush(cfg, s, step) {
      PushSafe(cfg, s, step);
    } else if CanListen(cfg, s, step) {
      ListenSafe(cfg, s, step);
    } else if CanLaunch(cfg, s, step) {
      LaunchSafe(cfg, s, step);
    } else if CanWork(cfg, s, step) {
      WorkSafe(cfg, s, step);
    } else {
      ControlSafe(cfg, s, step);
    }
  }

  /** The state after a run from the start, or nothing if some step was not enabled; the invariant holds in all of them. */
  ghost function Exec(cfg: Config, steps: seq<Step>): (r: Option<State>)
    ensures r.Some? ==> Inv(cfg, r.value)
  {
    if steps == [] then
      InitInv(cfg);
      Some(Init(cfg))
    else
      var before := Exec(cfg, steps[..|steps| - 1]);
      var step := steps[|steps| - 1];
      if before.Some? && Enabled(cfg, before.value, step) then
        NextInv(cfg, before.value, step);
        Some(Next(cfg, before.value, step))
      else None
  }
}
