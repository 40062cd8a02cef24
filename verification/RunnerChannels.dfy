/** Backpressure and the launchpad: no wake-up of the push listener and, after a clean resume, no launch signal is lost. */
module RunnerChannels {
  import opened Nodes
  import opened GraphModel
  import opened Waiting
  import opened Runner
  import opened RunnerSafety
  import opened RunnerLedger

  // ---------------------------------------------------------------- backpressure

  /** A worker that has updated the graph and not yet sent its notification. */
  predicate AboutToNotify(ws: seq<Worker>) {
    exists i :: 0 <= i < |ws| && (ws[i].WCancelling? || ws[i].WNotifying?)
  }

  ghost predicate Backpressure(cfg: Config, s: State) {
    && (cfg.maxGraphSize > 0 ==> |s.graph.nodes.Keys| <= cfg.maxGraphSize)
    && (s.pusher.PAdding? ==> !Full(cfg, s))
    && (s.pusher.PWaiting? && !Full(cfg, s) ==> s.notify || AboutToNotify(s.workers))
  }

  /** Nothing that matters to the push listener moved, or its own step did it. */
  lemma BackpressureFrame(cfg: Config, s: State, s': State)
    requires Backpressure(cfg, s) && s'.graph.nodes == s.graph.nodes && s'.workers == s.workers
    requires s'.pusher == s.pusher && s'.notify == s.notify
    ensures Backpressure(cfg, s')
  {
  }

  lemma BackpressureAfterWork(cfg: Config, s: State, s': State, i: nat, w: Worker)
    requires Backpressure(cfg, s) && i < |s.workers| && s'.workers == s.workers[i := w]
    requires s'.pusher == s.pusher && s'.graph.nodes.Keys <= s.graph.nodes.Keys
    requires s'.notify || (s'.notify == s.notify && (s.workers[i].WCancelling? || s.workers[i].WNotifying?
                                                     ==> w.WCancelling? || w.WNotifying?))
    requires s'.graph.nodes == s.graph.nodes || w.WCancelling?
    ensures Backpressure(cfg, s')
  {
    SubsetSize(s'.graph.nodes.Keys, s.graph.nodes.Keys);
    if AboutToNotify(s.workers) {
      var k :| 0 <= k < |s.workers| && (s.workers[k].WCancelling? || s.workers[k].WNotifying?);
      assert k != i ==> s'.workers[k] == s.workers[k];
    }
    assert s'.workers[i] == w;
  }

  lemma SubsetSize<T>(a: set<T>, b: set<T>)
    requires a <= b
    ensures |a| <= |b|
  {
    assert |b| == |a| + |b - a|;
  }

  lemma BackpressureAfterAdd(cfg: Config, s: State, s': State)
    requires Backpressure(cfg, s) && s.pusher.PAdding? && Added(s, s')
    ensures Backpressure(cfg, s')
  {
    assert |s.graph.nodes.Keys + {s.pusher.req.node.id}| == |s.graph.nodes.Keys| + 1;
  }

  lemma BackpressureAfterPush(cfg: Config, s: State, step: Step)
    requires Sound(s) && Backpressure(cfg, s) && CanPush(cfg, s, step)
    ensures Backpressure(cfg, Push(cfg, s, step))
  {
    if step.PushAdd? {
      AddFacts(cfg, s);
      BackpressureAfterAdd(cfg, s, Push(cfg, s, step));
    } else {
      hide Refines, FreshRequests, NoNil, Add, AddWaits;
    }
  }

  lemma BackpressureKept(cfg: Config, s: State, step: Step)
    requires Sound(s) && Staged(s) && Backpressure(cfg, s) && Enabled(cfg, s, step)
    ensures Backpressure(cfg, Next(cfg, s, step))
  {
    hide Staged, Refines, Backpressure, FreshRequests, NoNil, Push, Listen, Launch, Work, Control, Settled,
         CanPush, CanListen, CanLaunch, CanWork, CanControl;
    if CanPush(cfg, s, step) {
      BackpressureAfterPush(cfg, s, step);
    } else if CanListen(cfg, s, step) {
      ListenSpares(cfg, s, step);
    } else if CanLaunch(cfg, s, step) {
      LaunchSpares(cfg, s, step);
    } else if CanWork(cfg, s, step) {
      BackpressureAfterWorkStep(cfg, s, step);
    } else {
      ControlSpares(cfg, s, step);
    }
  }

  lemma ListenSpares(cfg: Config, s: State, step: Step)
    requires Backpressure(cfg, s) && CanListen(cfg, s, step)
    ensures Backpressure(cfg, Listen(cfg, s, step))
  {
    hide Backpressure;
    BackpressureFrame(cfg, s, Listen(cfg, s, step));
  }

  lemma LaunchSpares(cfg: Config, s: State, step: Step)
    requires Backpressure(cfg, s) && CanLaunch(cfg, s, step)
    ensures Backpressure(cfg, Launch(cfg, s, step))
  {
    var s' := Launch(cfg, s, step);
    assert s' == s.(heap := s'.heap, launchpad := s'.launchpad, launcher := s'.launcher, pool := s'.pool,
                    launched := s'.launched);
    hide Backpressure, Launch, CanLaunch;
    BackpressureFrame(cfg, s, s');
  }

  lemma ControlSpares(cfg: Config, s: State, step: Step)
    requires Backpressure(cfg, s) && CanControl(cfg, s, step)
    ensures Backpressure(cfg, Control(cfg, s, step))
  {
    hide Backpressure;
    BackpressureFrame(cfg, s, Control(cfg, s, step));
  }

  lemma BackpressureAfterWorkStep(cfg: Config, s: State, step: Step)
    requires Sound(s) && Staged(s) && Backpressure(cfg, s) && CanWork(cfg, s, step)
    ensures Backpressure(cfg, Work(cfg, s, step))
  {
    hide Staged, Refines, Backpressure, FreshRequests, NoNil, Begin, End, Callback, Settled;
    if IsBegin(step) {
      BackpressureAfterBegin(cfg, s, step);
    } else if IsEnd(step) {
      BackpressureAfterEnd(cfg, s, step);
    } else {
      var gone := SettleFacts(cfg, s, step.i);
      BackpressureAfterSettle(cfg, s, step.i, Callback(cfg, s, step.i), gone);
    }
  }

  lemma BackpressureAfterBegin(cfg: Config, s: State, step: Step)
    requires Backpressure(cfg, s) && CanWork(cfg, s, step) && IsBegin(step)
    ensures Backpressure(cfg, Begin(cfg, s, step))
  {
    hide Backpressure;
    var s' := Begin(cfg, s, step);
    BackpressureAfterWork(cfg, s, s', step.i, s'.workers[step.i]);
  }

  lemma BackpressureAfterEnd(cfg: Config, s: State, step: Step)
    requires Backpressure(cfg, s) && CanWork(cfg, s, step) && IsEnd(step)
    ensures Backpressure(cfg, End(cfg, s, step))
  {
    hide Backpressure;
    var s' := End(cfg, s, step);
    BackpressureAfterWork(cfg, s, s', step.i, s'.workers[step.i]);
  }

  lemma BackpressureAfterSettle(cfg: Config, s: State, i: nat, s': State, gone: set<NodeId>)
    requires Backpressure(cfg, s) && i < |s.workers| && s.workers[i].WCounted? && Settled(cfg, s, i, s', gone)
    ensures Backpressure(cfg, s')
  {
    hide Backpressure, Discharged;
    BackpressureAfterWork(cfg, s, s', i, WCancelling(|gone| - 1));
  }

  // ---------------------------------------------------------------- launchpad

  /** Signals on their way to the launch controller. */
  function Signals(s: State): nat {
    s.launchpad + s.owed + (if s.listener.LOwes? then 1 else 0)
    + if s.launcher.CSignalled? || s.launcher.CAwake? then 1 else 0
  }

  /** After a resume that has dropped no signal, and until the next pause, every queued node has a signal of its own. */
  ghost predicate Covered(s: State) {
    s.history.covered ==> !s.paused && |s.heap| <= Signals(s)
  }

  lemma CoveredAfterListen(cfg: Config, s: State, step: Step)
    requires Covered(s) && CanListen(cfg, s, step)
    ensures Covered(Listen(cfg, s, step))
  {
  }

  lemma CoveredAfterLaunch(cfg: Config, s: State, step: Step)
    requires Covered(s) && CanLaunch(cfg, s, step)
    ensures Covered(Launch(cfg, s, step))
  {
  }

  lemma CoveredAfterControl(cfg: Config, s: State, step: Step)
    requires Covered(s) && CanControl(cfg, s, step)
    ensures Covered(Control(cfg, s, step))
  {
  }

  lemma CoveredAfterPush(cfg: Config, s: State, step: Step)
    requires Refines(s.graph, s.waits) && Covered(s) && CanPush(cfg, s, step)
    ensures Covered(Push(cfg, s, step))
  {
    hide Refines, Add, AddWaits;
  }

  lemma CoveredAfterWork(cfg: Config, s: State, step: Step)
    requires Sound(s) && Staged(s) && Covered(s) && CanWork(cfg, s, step)
    ensures Covered(Work(cfg, s, step))
  {
    hide Staged, Refines, Covered, FreshRequests, NoNil, Begin, End, Callback, Settled;
    if IsBegin(step) {
      CoveredAfterBegin(cfg, s, step);
    } else if IsEnd(step) {
      CoveredAfterEnd(cfg, s, step);
    } else {
      var gone := SettleFacts(cfg, s, step.i);
      CoveredAfterSettle(cfg, s, step.i, Callback(cfg, s, step.i), gone);
    }
  }

  lemma CoveredAfterBegin(cfg: Config, s: State, step: Step)
    requires Covered(s) && CanWork(cfg, s, step) && IsBegin(step)
    ensures Covered(Begin(cfg, s, step))
  {
  }

  lemma CoveredAfterEnd(cfg: Config, s: State, step: Step)
    requires Covered(s) && CanWork(cfg, s, step) && IsEnd(step)
    ensures Covered(End(cfg, s, step))
  {
  }

  lemma CoveredAfterSettle(cfg: Config, s: State, i: nat, s': State, gone: set<NodeId>)
    requires Covered(s) && i < |s.workers| && s.workers[i].WCounted? && Settled(cfg, s, i, s', gone)
    ensures Covered(s')
  {
    hide Discharged;
  }

  lemma CoveredKept(cfg: Config, s: State, step: Step)
    requires Sound(s) && Staged(s) && Covered(s) && Enabled(cfg, s, step)
    ensures Covered(Next(cfg, s, step))
  {
    hide Refines, Staged, Covered, FreshRequests, NoNil, Push, Listen, Launch, Work, Control,
         CanPush, CanListen, CanLaunch, CanWork, CanControl;
    if CanPush(cfg, s, step) {
      CoveredAfterPush(cfg, s, step);
    } else if CanListen(cfg, s, step) {
      CoveredAfterListen(cfg, s, step);
    } else if CanLaunch(cfg, s, step) {
      CoveredAfterLaunch(cfg, s, step);
    } else if CanWork(cfg, s, step) {
      CoveredAfterWork(cfg, s, step);
    } else {
      CoveredAfterControl(cfg, s, step);
    }
  }

  // ---------------------------------------------------------------- the resend loop

  /** `n` rounds of the resend loop of Start, with nothing in between; another Start may still be offering the rest. */
  function Resend(cfg: Config, s: State, n: nat): State
    requires n <= s.owed
    decreases n
  {
    if n == 0 then s else Resend(cfg, Control(cfg, s, StartSignal), n - 1)
  }

  lemma {:induction false} ResendFills(cfg: Config, s: State, n: nat)
    requires s.launchpad <= cfg.launchCap && n <= s.owed
    ensures var s' := Resend(cfg, s, n);
            && s'.owed == s.owed - n && s'.heap == s.heap && s'.listener == s.listener && s'.launcher == s.launcher
            && s'.launchpad == if s.launchpad + n <= cfg.launchCap then s.launchpad + n else cfg.launchCap
    decreases n
  {
    if n > 0 {
      ResendFills(cfg, Control(cfg, s, StartSignal), n - 1);
    }
  }

  /**
   Resuming gives every queued node a signal if and only if the launchpad, plus the signals that the listener, the launch
   controller and earlier resumes are holding, is large enough for the whole queue. A full launchpad drops the rest.
   */
  lemma ResumeCovers(cfg: Config, s: State)
    requires s.paused && s.launchpad <= cfg.launchCap
    ensures var s' := Resend(cfg, Control(cfg, s, Start), |s.heap|);
            |s'.heap| <= Signals(s') <==> |s.heap| <= cfg.launchCap + Signals(s) - s.launchpad
  {
    ResendFills(cfg, Control(cfg, s, Start), |s.heap|);
  }
}
