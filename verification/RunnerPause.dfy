/** What a pause does: no queued node is launched until the next Start, except one that the launch controller was after already. */
module RunnerPause {
  import opened Nodes
  import opened GraphModel
  import opened Waiting
  import opened Runner
  import opened RunnerSafety
  import opened RunnerLedger
  import opened RunnerRuns
  import opened RunnerProgress

  function Awake(s: State): nat {
    if s.launcher.CAwake? then 1 else 0
  }

  /** Since `before`, no more nodes left the queue than the launch controller was about to take then. */
  ghost predicate Quiet(before: State, s: State) {
    s.paused && |before.heap - s.heap| + Awake(s) <= Awake(before)
  }

  lemma {:induction false} OneLess<T>(a: multiset<T>, b: multiset<T>, x: T)
    ensures |a - (b - multiset{x})| <= |a - b| + 1
    ensures |a - (b + multiset{x})| <= |a - b|
  {
    SubBag(a - (b - multiset{x}), (a - b) + multiset{x});
    SubBag(a - (b + multiset{x}), a - b);
  }

  lemma SubBag<T>(small: multiset<T>, large: multiset<T>)
    requires small <= large
    ensures |small| <= |large|
  {
    assert large == small + (large - small);
  }

  lemma QuietAfterListen(cfg: Config, before: State, s: State, step: Step)
    requires Quiet(before, s) && CanListen(cfg, s, step)
    ensures Quiet(before, Listen(cfg, s, step))
  {
    if step.ListenQueue? {
      OneLess(before.heap, s.heap, s.listener.id);
    }
  }

  lemma QuietAfterLaunch(cfg: Config, before: State, s: State, step: Step)
    requires Quiet(before, s) && CanLaunch(cfg, s, step)
    ensures Quiet(before, Launch(cfg, s, step))
  {
    if step.LaunchPop? {
      OneLess(before.heap, s.heap, step.id);
    }
  }

  lemma QuietFrame(before: State, s: State, s': State)
    requires Quiet(before, s) && s'.paused == s.paused && s'.heap == s.heap && s'.launcher == s.launcher
    ensures Quiet(before, s')
  {
  }

  lemma QuietAfterControl(cfg: Config, before: State, s: State, step: Step)
    requires Quiet(before, s) && CanControl(cfg, s, step) && !step.Start?
    ensures Quiet(before, Control(cfg, s, step))
  {
  }

  lemma PushKeepsLaunch(cfg: Config, s: State, step: Step)
    requires Refines(s.graph, s.waits) && CanPush(cfg, s, step)
    ensures var s' := Push(cfg, s, step); s'.paused == s.paused && s'.heap == s.heap && s'.launcher == s.launcher
  {
    hide Refines, Add, AddWaits;
  }

  lemma BeginKeepsLaunch(cfg: Config, s: State, step: Step)
    requires CanWork(cfg, s, step) && IsBegin(step)
    ensures var s' := Begin(cfg, s, step); s'.paused == s.paused && s'.heap == s.heap && s'.launcher == s.launcher
  {
  }

  lemma EndKeepsLaunch(cfg: Config, s: State, step: Step)
    requires CanWork(cfg, s, step) && IsEnd(step)
    ensures var s' := End(cfg, s, step); s'.paused == s.paused && s'.heap == s.heap && s'.launcher == s.launcher
  {
  }

  lemma WorkKeepsLaunch(cfg: Config, s: State, step: Step)
    requires Sound(s) && Staged(s) && CanWork(cfg, s, step)
    ensures var s' := Work(cfg, s, step); s'.paused == s.paused && s'.heap == s.heap && s'.launcher == s.launcher
  {
    hide Staged, Refines, FreshRequests, NoNil, Begin, End, Callback, Discharged;
    if IsBegin(step) {
      BeginKeepsLaunch(cfg, s, step);
    } else if IsEnd(step) {
      EndKeepsLaunch(cfg, s, step);
    } else {
      var gone := SettleFacts(cfg, s, step.i);
    }
  }

  /** Neither the push listener nor a worker touches the pause flag, the queue or the launch controller. */
  lemma OthersKeepLaunch(cfg: Config, s: State, step: Step)
    requires Sound(s) && Staged(s) && Enabled(cfg, s, step)
    requires !CanListen(cfg, s, step) && !CanLaunch(cfg, s, step) && !CanControl(cfg, s, step)
    ensures var s' := Next(cfg, s, step); s'.paused == s.paused && s'.heap == s.heap && s'.launcher == s.launcher
  {
    hide Refines, Staged, FreshRequests, NoNil, Push, Work, CanPush, CanListen, CanLaunch, CanWork, CanControl;
    if CanPush(cfg, s, step) {
      PushKeepsLaunch(cfg, s, step);
    } else {
      WorkKeepsLaunch(cfg, s, step);
    }
  }

  lemma OneActor(cfg: Config, s: State, step: Step)
    ensures !(CanPush(cfg, s, step) && CanListen(cfg, s, step)) && !(CanPush(cfg, s, step) && CanLaunch(cfg, s, step))
    ensures !(CanListen(cfg, s, step) && CanLaunch(cfg, s, step))
    ensures CanControl(cfg, s, step) ==>
              !CanPush(cfg, s, step) && !CanListen(cfg, s, step) && !CanLaunch(cfg, s, step) && !CanWork(cfg, s, step)
  {
  }

  lemma QuietStep(cfg: Config, before: State, s: State, step: Step)
    requires Sound(s) && Staged(s) && Quiet(before, s) && Enabled(cfg, s, step) && !step.Start?
    ensures Quiet(before, Next(cfg, s, step))
  {
    OneActor(cfg, s, step);
    hide Refines, Staged, FreshRequests, NoNil, Quiet, Push, Listen, Launch, Work, Control,
         CanPush, CanListen, CanLaunch, CanWork, CanControl;
    if CanListen(cfg, s, step) {
      QuietAfterListen(cfg, before, s, step);
    } else if CanLaunch(cfg, s, step) {
      QuietAfterLaunch(cfg, before, s, step);
    } else if CanControl(cfg, s, step) {
      QuietAfterControl(cfg, before, s, step);
    } else {
      OthersKeepLaunch(cfg, s, step);
      QuietFrame(before, s, Next(cfg, s, step));
    }
  }

  lemma InvQuiet(cfg: Config, before: State, s: State, step: Step)
    requires Inv(cfg, s) && Quiet(before, s) && Enabled(cfg, s, step) && !step.Start?
    ensures Quiet(before, Next(cfg, s, step))
  {
    hide Sound, Staged, Enabled, Next, Quiet;
    QuietStep(cfg, before, s, step);
  }

  lemma {:induction false} StaysQuiet(cfg: Config, before: State, steps: seq<Step>, more: seq<Step>)
    requires Exec(cfg, steps + more).Some? && Exec(cfg, steps).Some? && Quiet(before, Exec(cfg, steps).value)
    requires forall step <- more :: !step.Start?
    ensures Quiet(before, Exec(cfg, steps + more).value)
    decreases |more|
  {
    hide Inv, Exec, Enabled, Next, Quiet;
    if more == [] {
      assert steps + more == steps;
    } else {
      var front, last := more[..|more| - 1], more[|more| - 1];
      assert more == front + [last] && last in more;
      ExecMore(cfg, steps, front, last);
      StaysQuiet(cfg, before, steps, front);
      InvQuiet(cfg, before, Exec(cfg, steps + front).value, last);
    }
  }

  lemma PausedNow(cfg: Config, s: State)
    requires Inv(cfg, s)
    ensures Enabled(cfg, s, Pause) && Quiet(s, Next(cfg, s, Pause))
  {
    hide Refines, FreshRequests, NoNil, Staged;
    assert Next(cfg, s, Pause) == Control(cfg, s, Pause);
    assert s.heap - s.heap == multiset{};
  }

  /**
   In every run, from a Pause to the next Start: the scheduler stays paused, and whatever else happens, of the nodes queued
   at the Pause none leaves the queue, except one if the launch controller had passed its pause check before.
   */
  lemma PauseHolds(cfg: Config, steps: seq<Step>, more: seq<Step>)
    requires Exec(cfg, steps).Some? && Exec(cfg, steps + [Pause] + more).Some? && forall step <- more :: !step.Start?
    ensures var before, s := Exec(cfg, steps).value, Exec(cfg, steps + [Pause] + more).value;
            && s.paused
            && (s.launcher.CAwake? ==> before.launcher.CAwake?)
            && |before.heap - s.heap| <= (if before.launcher.CAwake? then 1 else 0)
            && (!before.launcher.CAwake? ==> before.heap <= s.heap)
  {
    hide Inv, Exec, Next, Enabled;
    var before := Exec(cfg, steps).value;
    PausedNow(cfg, before);
    assert steps + ([] + [Pause]) == steps + [Pause] && steps + [] == steps;
    ExecMore(cfg, steps, [], Pause);
    StaysQuiet(cfg, before, steps + [Pause], more);
    var s := Exec(cfg, steps + [Pause] + more).value;
    if !before.launcher.CAwake? {
      NothingMissing(before.heap, s.heap);
    }
  }

  lemma NothingMissing<T>(a: multiset<T>, b: multiset<T>)
    requires |a - b| == 0
    ensures a <= b
  {
    assert a - b == multiset{};
    forall x
      ensures a[x] <= b[x]
    {
      assert (a - b)[x] == 0;
    }
  }

  // ---------------------------------------------------------------- and a Start

  lemma RunningStep(cfg: Config, s: State, step: Step)
    requires Sound(s) && Staged(s) && !s.paused && Enabled(cfg, s, step) && !step.Pause?
    ensures !Next(cfg, s, step).paused
  {
    OneActor(cfg, s, step);
    hide Refines, Staged, FreshRequests, NoNil, Push, Work, CanPush, CanWork;
    if CanPush(cfg, s, step) || CanWork(cfg, s, step) {
      if !CanListen(cfg, s, step) && !CanLaunch(cfg, s, step) && !CanControl(cfg, s, step) {
        OthersKeepLaunch(cfg, s, step);
      }
    }
  }

  lemma InvRunning(cfg: Config, s: State, step: Step)
    requires Inv(cfg, s) && !s.paused && Enabled(cfg, s, step) && !step.Pause?
    ensures !Next(cfg, s, step).paused
  {
    hide Sound, Staged, Enabled, Next;
    RunningStep(cfg, s, step);
  }

  lemma {:induction false} StaysRunning(cfg: Config, steps: seq<Step>, more: seq<Step>)
    requires Exec(cfg, steps + more).Some? && Exec(cfg, steps).Some? && !Exec(cfg, steps).value.paused
    requires forall step <- more :: !step.Pause?
    ensures !Exec(cfg, steps + more).value.paused
    decreases |more|
  {
    hide Inv, Exec, Enabled, Next;
    if more == [] {
      assert steps + more == steps;
    } else {
      var front, last := more[..|more| - 1], more[|more| - 1];
      assert more == front + [last] && last in more;
      ExecMore(cfg, steps, front, last);
      StaysRunning(cfg, steps, front);
      InvRunning(cfg, Exec(cfg, steps + front).value, last);
    }
  }

  lemma StartedNow(cfg: Config, s: State)
    requires Inv(cfg, s)
    ensures Enabled(cfg, s, Start) && !Next(cfg, s, Start).paused
  {
    hide Refines, FreshRequests, NoNil, Staged;
    assert Next(cfg, s, Start) == Control(cfg, s, Start);
  }

  /** From a Start to the next Pause the scheduler is not paused. */
  lemma StartHolds(cfg: Config, steps: seq<Step>, more: seq<Step>)
    requires Exec(cfg, steps).Some? && Exec(cfg, steps + [Start] + more).Some? && forall step <- more :: !step.Pause?
    ensures !Exec(cfg, steps + [Start] + more).value.paused
  {
    hide Inv, Exec, Next, Enabled;
    StartedNow(cfg, Exec(cfg, steps).value);
    assert steps + ([] + [Start]) == steps + [Start] && steps + [] == steps;
    ExecMore(cfg, steps, [], Start);
    StaysRunning(cfg, steps + [Start], more);
  }
}
