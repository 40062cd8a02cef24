/**
 The scheduler cannot run forever on its own: every step but those of clients and of callers of Start and Pause uses up
 some of a finite amount of work.
 */
module RunnerProgress {
  import opened Nodes
  import opened GraphModel
  import opened Waiting
  import opened Subtree
  import opened Runner
  import opened RunnerSafety
  import opened RunnerLedger
  import opened RunnerBooks
  import opened RunnerRuns
  import opened RunnerSlots
  import opened RunnerTheorems

  predicate Internal(step: Step) {
    !step.Submit? && !step.Start? && !step.Pause?
  }

  // ---------------------------------------------------------------- the work ahead

  /** A blocked node weighs more than a ready one, a ready one more than one in the listener's hand, and so on. */
  ghost function GraphWork(g: Graph): nat {
    20 * |g.nodes.Keys - Entry(g)| + 19 * |g.ready|
  }

  /** Waiting for space is one step from looking again, which a token of `graphSpaceNotify` pays for. */
  function PusherWork(p: Pusher): nat {
    match p
    case PIdle => 0
    case PChecking(_) => 22
    case PWaiting(_) => 21
    case PAdding(_) => 21
  }

  function ListenerWork(l: Listener): nat {
    match l
    case LIdle => 0
    case LGot(_, _) => 18
    case LOwes => 4
    case LCrashed => 0
  }

  function LauncherWork(c: Launcher): nat {
    match c
    case CIdle => 0
    case CSignalled => 2
    case CAwake => 1
    case CBudget(_) => 13
    case CRecorded(_) => 12
    case CDispatched => 1
  }

  function WorkerWork(w: Worker): nat {
    match w
    case WIdle => 0
    case WGot(_) => 9
    case WBusy(_) => 8
    case WEmitted(_) => 7
    case WCounted(_) => 6
    case WCancelling(left) => 5 + left
    case WNotifying => 4
    case WFinishing => 1
  }

  function ActorWork(s: State): nat {
    23 * |s.pushChan| + PusherWork(s.pusher) + (if s.notify then 2 else 0) + ListenerWork(s.listener)
    + 13 * |s.heap| + 3 * s.launchpad + 4 * s.owed + LauncherWork(s.launcher) + 10 * |s.pool| + SumOf(s.workers, WorkerWork)
  }

  ghost function WorkAhead(s: State): nat {
    GraphWork(s.graph) + ActorWork(s)
  }

  // ---------------------------------------------------------------- the graph's share

  lemma EntriesSize(live: set<NodeId>, entry: set<NodeId>, entry': set<NodeId>, id: NodeId)
    requires id in entry && entry <= live && entry' <= live - {id} && entry - {id} <= entry'
    ensures |live - {id} - entry'| + |entry' - entry| == |live - entry|
  {
    assert live - entry == (live - {id} - entry') + (entry' - entry);
  }

  lemma {:induction false} IdsSize(ready: seq<Option<WorkNode>>)
    requires NoNil(ready)
    ensures |Ids(ready)| == |ready|
  {
    if ready != [] {
      assert ready[|ready| - 1] in ready;
      IdsSize(ready[..|ready| - 1]);
    }
  }

  lemma AddWork(cfg: Config, s: State)
    requires Sound(s) && CanPush(cfg, s, PushAdd)
    ensures GraphWork(Push(cfg, s, PushAdd).graph) <= GraphWork(s.graph) + 20
  {
    var Request(node, deps) := s.pusher.req;
    PusherFresh(s);
    LiveIsRanked(s.graph, s.waits, node.id);
    AddPublishes(s.graph, node, deps);
    var g, g' := s.graph, Add(s.graph, node, deps);
    IdsSize(g.ready);
    IdsSize(g'.ready);
    AddFacts(cfg, s);
    BlockedAfterAdd(g, g', node.id, deps);
  }

  lemma BlockedAfterAdd(g: Graph, g': Graph, id: NodeId, deps: seq<NodeId>)
    requires id !in g.nodes.Keys && g'.nodes.Keys == g.nodes.Keys + {id} && Entry(g) <= g.nodes.Keys
    requires Entry(g') == Entry(g) + if deps == [] then {id} else {}
    requires |g'.ready| == |g.ready| + |Entry(g') - Entry(g)|
    ensures GraphWork(g') <= GraphWork(g) + 20
  {
    hide Entry;
    OneJoins(g.nodes.Keys, Entry(g), Entry(g'), id);
  }

  lemma OneJoins(live: set<NodeId>, entry: set<NodeId>, entry': set<NodeId>, id: NodeId)
    requires id !in live && entry <= live && (entry' == entry || entry' == entry + {id})
    ensures |live + {id} - entry'| + |entry' - entry| == |live - entry| + 1
  {
    if entry' == entry {
      assert live + {id} - entry' == (live - entry) + {id} && entry' - entry == {};
    } else {
      assert live + {id} - entry' == live - entry && entry' - entry == {id};
    }
  }

  lemma RemoveWork(g: Graph, w: Waits, id: NodeId)
    requires Refines(g, w) && NoNil(g.ready) && id in Entry(g)
    ensures GraphWork(RemoveNode(g, id, true)) <= GraphWork(g)
  {
    var g' := RemoveNode(g, id, true);
    RemovePublishes(g, w, id);
    RemoveUnlinks(g, id, true);
    IdsSize(g.ready);
    IdsSize(g'.ready);
    assert g'.nodes.Keys == g.nodes.Keys - {id};
    EntriesSize(g.nodes.Keys, Entry(g), Entry(g'), id);
  }

  lemma TreeLeaves(live: set<NodeId>, entry: set<NodeId>, gone: set<NodeId>, id: NodeId)
    requires id in entry && entry <= live && id in gone && gone <= live && entry - {id} <= live - gone
    ensures |live - gone - (entry - {id})| + |gone - {id}| == |live - entry|
  {
    assert live - entry == (live - gone - (entry - {id})) + (gone - {id});
  }

  lemma CancelWork(g: Graph, w: Waits, id: NodeId)
    requires Refines(g, w) && id in Entry(g)
    ensures var (g', removed) := RemoveSubtree(g, id, w.order);
            GraphWork(g') + |Members(removed) - {id}| <= GraphWork(g)
  {
    var (g', removed) := RemoveSubtree(g, id, w.order);
    CancelReady(g, w, id);
    RemovedKeys(g, w, id);
    CancelEntry(g, w, id);
    assert Entry(g) <= g.nodes.Keys && Entry(g') <= g'.nodes.Keys;
    hide Refines, RemoveSubtree, Members, Entry;
    TreeLeaves(g.nodes.Keys, Entry(g), Members(removed), id);
  }

  /** Worker `i` moves on; the graph may change with it. */
  lemma WorkerMoves(s: State, s': State, i: nat, w: Worker)
    requires i < |s.workers| && s'.workers == s.workers[i := w]
    requires s'.pushChan == s.pushChan && s'.pusher == s.pusher && s'.listener == s.listener && s'.heap == s.heap
    requires s'.launchpad == s.launchpad && s'.owed == s.owed && s'.launcher == s.launcher
    requires GraphWork(s'.graph) + WorkerWork(w) + 10 * |s'.pool| + (if s'.notify && !s.notify then 2 else 0)
             < GraphWork(s.graph) + WorkerWork(s.workers[i]) + 10 * |s.pool|
    requires s.notify ==> s'.notify
    ensures WorkAhead(s') < WorkAhead(s)
  {
    hide GraphWork;
    SumOfUpdate(s.workers, i, w, WorkerWork);
  }

  lemma AloneMoves(cfg: Config, s: State, i: nat, g': Graph)
    requires i < |s.workers| && s.workers[i].WCounted? && GraphWork(g') <= GraphWork(s.graph)
    ensures WorkAhead(LeftAlone(cfg, s, s.workers[i].id, g').(workers := s.workers[i := WCancelling(0)])) < WorkAhead(s)
  {
    hide GraphWork, WorkAhead;
    WorkerMoves(s, LeftAlone(cfg, s, s.workers[i].id, g').(workers := s.workers[i := WCancelling(0)]), i, WCancelling(0));
  }

  lemma TreeMoves(cfg: Config, s: State, i: nat, g': Graph, gone: set<NodeId>)
    requires i < |s.workers| && s.workers[i].WCounted?
    requires GraphWork(g') + |gone - {s.workers[i].id}| <= GraphWork(s.graph)
    ensures var left := WCancelling(|gone - {s.workers[i].id}|);
            WorkAhead(LeftWith(s, s.workers[i].id, g', gone).(workers := s.workers[i := left])) < WorkAhead(s)
  {
    hide GraphWork, WorkAhead;
    var left := WCancelling(|gone - {s.workers[i].id}|);
    WorkerMoves(s, LeftWith(s, s.workers[i].id, g', gone).(workers := s.workers[i := left]), i, left);
  }

  lemma TreeWork(cfg: Config, s: State, i: nat)
    requires CanWork(cfg, s, WorkRemove(i)) && Refines(s.graph, s.waits) && s.workers[i].id in Entry(s.graph)
    requires s.workers[i].id in cfg.fails && cfg.propagate
    ensures WorkAhead(Callback(cfg, s, i)) < WorkAhead(s)
  {
    hide Refines, GraphWork, RemoveSubtree, WorkAhead, LeftWith, Members, Entry, Ranked;
    var id := s.workers[i].id;
    RefinesRanked(s.graph, s.waits);
    CancelWork(s.graph, s.waits, id);
    TreeMoves(cfg, s, i, RemoveSubtree(s.graph, id, s.waits.order).0, Members(RemoveSubtree(s.graph, id, s.waits.order).1));
  }

  lemma AloneWork(cfg: Config, s: State, i: nat)
    requires CanWork(cfg, s, WorkRemove(i)) && Refines(s.graph, s.waits) && NoNil(s.graph.ready)
    requires s.workers[i].id in Entry(s.graph)
    requires s.workers[i].id !in cfg.fails || !cfg.propagate
    ensures WorkAhead(Callback(cfg, s, i)) < WorkAhead(s)
  {
    hide Refines, NoNil, GraphWork, RemoveNode, WorkAhead, LeftAlone, Entry;
    var id := s.workers[i].id;
    RemoveWork(s.graph, s.waits, id);
    AloneMoves(cfg, s, i, RemoveNode(s.graph, id, true));
  }

  lemma CallbackWork(cfg: Config, s: State, i: nat)
    requires Sound(s) && Staged(s) && CanWork(cfg, s, WorkRemove(i))
    ensures WorkAhead(Callback(cfg, s, i)) < WorkAhead(s)
  {
    HeldIsEntry(s, i, s.workers[i].id);
    hide Staged, Refines, NoNil, FreshRequests, WorkAhead, Callback, Entry;
    if s.workers[i].id in cfg.fails && cfg.propagate {
      TreeWork(cfg, s, i);
    } else {
      AloneWork(cfg, s, i);
    }
  }

  // ---------------------------------------------------------------- every step

  lemma BeginWork(cfg: Config, s: State, step: Step)
    requires CanWork(cfg, s, step) && IsBegin(step)
    ensures WorkAhead(Begin(cfg, s, step)) < WorkAhead(s)
  {
    hide GraphWork, WorkAhead;
    var s' := Begin(cfg, s, step);
    WorkerMoves(s, s', step.i, s'.workers[step.i]);
  }

  lemma EndWork(cfg: Config, s: State, step: Step)
    requires CanWork(cfg, s, step) && IsEnd(step)
    ensures WorkAhead(End(cfg, s, step)) < WorkAhead(s)
  {
    hide GraphWork, WorkAhead;
    var s' := End(cfg, s, step);
    WorkerMoves(s, s', step.i, s'.workers[step.i]);
  }

  lemma PushWork(cfg: Config, s: State, step: Step)
    requires Sound(s) && CanPush(cfg, s, step) && Internal(step)
    ensures WorkAhead(Push(cfg, s, step)) < WorkAhead(s)
  {
    if step.PushAdd? {
      AddWork(cfg, s);
    }
    hide GraphWork, Refines, Add, AddWaits;
  }

  lemma ListenWork(cfg: Config, s: State, step: Step)
    requires CanListen(cfg, s, step)
    ensures WorkAhead(Listen(cfg, s, step)) < WorkAhead(s)
  {
    assert Entry(Listen(cfg, s, step).graph) == Entry(s.graph);
  }

  lemma LaunchWork(cfg: Config, s: State, step: Step)
    requires CanLaunch(cfg, s, step)
    ensures WorkAhead(Launch(cfg, s, step)) < WorkAhead(s)
  {
    hide GraphWork;
  }

  lemma ControlWork(cfg: Config, s: State, step: Step)
    requires CanControl(cfg, s, step) && Internal(step)
    ensures WorkAhead(Control(cfg, s, step)) < WorkAhead(s)
  {
    hide GraphWork;
  }

  /** Every step the scheduler takes by itself leaves less work. */
  lemma StepWorks(cfg: Config, s: State, step: Step)
    requires Sound(s) && Staged(s) && Enabled(cfg, s, step) && Internal(step)
    ensures WorkAhead(Next(cfg, s, step)) < WorkAhead(s)
  {
    hide Staged, Refines, FreshRequests, NoNil, WorkAhead, Push, Listen, Launch, Begin, End, Callback, Control,
         CanPush, CanListen, CanLaunch, CanControl;
    if CanPush(cfg, s, step) {
      PushWork(cfg, s, step);
    } else if CanListen(cfg, s, step) {
      ListenWork(cfg, s, step);
    } else if CanLaunch(cfg, s, step) {
      LaunchWork(cfg, s, step);
    } else if CanWork(cfg, s, step) {
      if IsBegin(step) {
        BeginWork(cfg, s, step);
      } else if IsEnd(step) {
        EndWork(cfg, s, step);
      } else {
        CallbackWork(cfg, s, step.i);
      }
    } else {
      ControlWork(cfg, s, step);
    }
  }

  lemma InvWorks(cfg: Config, s: State, step: Step)
    requires Inv(cfg, s) && Enabled(cfg, s, step) && Internal(step)
    ensures WorkAhead(Next(cfg, s, step)) < WorkAhead(s)
  {
    hide Sound, Staged, Partition, NoneLost, Ledger, WorkAhead, Enabled, Next;
    StepWorks(cfg, s, step);
  }

  // ---------------------------------------------------------------- runs come to rest

  lemma ExecMore(cfg: Config, steps: seq<Step>, more: seq<Step>, step: Step)
    ensures Exec(cfg, steps + (more + [step]))
            == if Exec(cfg, steps + more).Some? && Enabled(cfg, Exec(cfg, steps + more).value, step)
               then Some(Next(cfg, Exec(cfg, steps + more).value, step)) else None
  {
    hide Inv, Enabled, Next;
    var all := steps + (more + [step]);
    assert all[..|all| - 1] == steps + more;
  }

  /** However the actors interleave, they take no more steps on their own than there was work ahead. */
  lemma {:induction false} ComesToRest(cfg: Config, steps: seq<Step>, more: seq<Step>)
    requires Exec(cfg, steps + more).Some? && forall step <- more :: Internal(step)
    ensures Exec(cfg, steps).Some?
    ensures |more| + WorkAhead(Exec(cfg, steps + more).value) <= WorkAhead(Exec(cfg, steps).value)
    decreases |more|
  {
    hide Inv, Exec, WorkAhead, Enabled, Next;
    if more == [] {
      assert steps + more == steps;
    } else {
      var front, last := more[..|more| - 1], more[|more| - 1];
      assert more == front + [last] && last in more;
      ExecMore(cfg, steps, front, last);
      ComesToRest(cfg, steps, front);
      InvWorks(cfg, Exec(cfg, steps + front).value, last);
    }
  }

  /** From every reachable state the actors can go on until nothing is left for them to do. */
  lemma {:induction false} RunToRest(cfg: Config, steps: seq<Step>) returns (more: seq<Step>)
    requires Exec(cfg, steps).Some?
    ensures Exec(cfg, steps + more).Some? && (forall step <- more :: Internal(step))
    ensures Quiescent(cfg, Exec(cfg, steps + more).value)
    decreases WorkAhead(Exec(cfg, steps).value)
  {
    hide Inv, Exec, WorkAhead, Enabled, Next;
    var s := Exec(cfg, steps).value;
    if Quiescent(cfg, s) {
      more := [];
      assert steps + more == steps;
    } else {
      var step: Step :| Internal(step) && Enabled(cfg, s, step);
      InvWorks(cfg, s, step);
      assert steps + ([] + [step]) == steps + [step] && steps + [] == steps;
      ExecMore(cfg, steps, [], step);
      var rest := RunToRest(cfg, steps + [step]);
      more := [step] + rest;
      assert steps + more == steps + [step] + rest;
    }
  }

  // ---------------------------------------------------------------- and by then every node has ended

  /** Every queued node has a signal, and will go on having one without any step from outside. */
  ghost predicate Steady(cfg: Config, s: State) {
    (s.history.covered && s.owed == 0) || (!s.paused && Roomy(cfg, s))
  }

  lemma SteadyFrame(cfg: Config, s: State, s': State)
    requires Steady(cfg, s) && s'.paused == s.paused && s'.owed == s.owed
    requires s'.history.covered == s.history.covered && s'.history.submitted == s.history.submitted
    ensures Steady(cfg, s')
  {
  }

  lemma SettledSteady(cfg: Config, s: State, i: nat, s': State, gone: set<NodeId>)
    requires Steady(cfg, s) && i < |s.workers| && s.workers[i].WCounted? && Settled(cfg, s, i, s', gone)
    ensures Steady(cfg, s')
  {
    hide Steady, Discharged;
    SteadyFrame(cfg, s, s');
  }

  lemma ControlSteady(cfg: Config, s: State, step: Step)
    requires Steady(cfg, s) && CanControl(cfg, s, step) && Internal(step)
    ensures Steady(cfg, Control(cfg, s, step))
  {
  }

  lemma PushSteady(cfg: Config, s: State, step: Step)
    requires Refines(s.graph, s.waits) && Steady(cfg, s) && CanPush(cfg, s, step) && Internal(step)
    ensures Steady(cfg, Push(cfg, s, step))
  {
    hide Refines, Add, AddWaits, Steady;
    SteadyFrame(cfg, s, Push(cfg, s, step));
  }

  lemma PlainSteady(cfg: Config, s: State, step: Step)
    requires Steady(cfg, s)
    ensures CanListen(cfg, s, step) ==> Steady(cfg, Listen(cfg, s, step))
    ensures CanLaunch(cfg, s, step) ==> Steady(cfg, Launch(cfg, s, step))
  {
  }

  lemma WorkSteady(cfg: Config, s: State, step: Step)
    requires Steady(cfg, s) && CanWork(cfg, s, step) && (IsBegin(step) || IsEnd(step))
    ensures Steady(cfg, if IsBegin(step) then Begin(cfg, s, step) else End(cfg, s, step))
  {
    hide Steady;
    SteadyFrame(cfg, s, if IsBegin(step) then Begin(cfg, s, step) else End(cfg, s, step));
  }

  lemma StepSteady(cfg: Config, s: State, step: Step)
    requires Sound(s) && Staged(s) && Enabled(cfg, s, step) && Internal(step) && Steady(cfg, s)
    ensures Steady(cfg, Next(cfg, s, step))
  {
    hide Staged, Refines, FreshRequests, NoNil, Steady, Settled, Push, Listen, Launch, Begin, End, Callback, Control,
         CanPush, CanListen, CanLaunch, CanControl;
    if CanPush(cfg, s, step) {
      PushSteady(cfg, s, step);
    } else if CanListen(cfg, s, step) || CanLaunch(cfg, s, step) {
      PlainSteady(cfg, s, step);
    } else if CanWork(cfg, s, step) {
      if IsBegin(step) || IsEnd(step) {
        WorkSteady(cfg, s, step);
      } else {
        var gone := SettleFacts(cfg, s, step.i);
        SettledSteady(cfg, s, step.i, Callback(cfg, s, step.i), gone);
      }
    } else {
      ControlSteady(cfg, s, step);
    }
  }

  lemma InvSteady(cfg: Config, s: State, step: Step)
    requires Inv(cfg, s) && Enabled(cfg, s, step) && Internal(step) && Steady(cfg, s)
    ensures Steady(cfg, Next(cfg, s, step))
  {
    hide Sound, Staged, Partition, NoneLost, Ledger, Enabled, Next, Steady;
    StepSteady(cfg, s, step);
  }

  lemma {:induction false} StaysSteady(cfg: Config, steps: seq<Step>, more: seq<Step>)
    requires Exec(cfg, steps + more).Some? && (forall step <- more :: Internal(step))
    requires Exec(cfg, steps).Some? && Steady(cfg, Exec(cfg, steps).value)
    ensures Steady(cfg, Exec(cfg, steps + more).value)
    decreases |more|
  {
    hide Inv, Exec, Steady, Enabled, Next;
    if more == [] {
      assert steps + more == steps;
    } else {
      var front, last := more[..|more| - 1], more[|more| - 1];
      assert more == front + [last] && last in more;
      ExecMore(cfg, steps, front, last);
      StaysSteady(cfg, steps, front);
      InvSteady(cfg, Exec(cfg, steps + front).value, last);
    }
  }

  /**
   From any reachable state that is not paused and where signals cannot run out, whatever the actors do next: they stop
   after a bounded number of steps. Where they stop, only nodes behind a blocked one are live; and if every dependency
   was live when its node was added, every node ever submitted was completed, failed or cancelled.
   */
  lemma EveryNodeEnds(cfg: Config, steps: seq<Step>, more: seq<Step>)
    requires cfg.launchCap > 0 && cfg.poolCap > 0 && cfg.workerCount > 0
    requires Exec(cfg, steps).Some? && Steady(cfg, Exec(cfg, steps).value)
    requires Exec(cfg, steps + more).Some? && forall step <- more :: Internal(step)
    ensures |more| <= WorkAhead(Exec(cfg, steps).value)
    ensures var s := Exec(cfg, steps + more).value;
            Quiescent(cfg, s) ==> forall n <- s.graph.nodes :: BehindBlocked(s.waits, n)
    ensures var s := Exec(cfg, steps + more).value;
            Quiescent(cfg, s) && s.history.grounded ==>
              && s.graph.nodes == map[]
              && s.history.submitted == s.history.done + s.history.bad + s.history.cancelled
              && s.completed == |s.history.done| && s.failed == |s.history.bad| + |s.history.cancelled|
              && s.completed + s.failed == |s.history.submitted|
  {
    hide Inv, Exec, WorkAhead, BehindBlocked, Roomy;
    ComesToRest(cfg, steps, more);
    StaysSteady(cfg, steps, more);
    hide Quiescent;
    var s := Exec(cfg, steps + more).value;
    if Quiescent(cfg, s) {
      forall n <- s.graph.nodes
        ensures BehindBlocked(s.waits, n)
      {
        OnlyBlockedLeft(cfg, steps + more, n);
      }
      if s.history.grounded {
        NothingLeftBehind(cfg, steps + more);
      }
    }
  }
}
