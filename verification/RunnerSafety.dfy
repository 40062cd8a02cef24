/**
 What every run of the scheduler keeps: the graph stays in step with its specification, and the ready nodes are spread
 over the stages without loss or duplication.
 */
module RunnerSafety {
  import opened Nodes
  import opened GraphModel
  import opened Waiting
  import opened Subtree
  import opened Runner

  // ---------------------------------------------------------------- stages

  function Requests(s: State): seq<Request> {
    (if s.pusher.PIdle? then [] else [s.pusher.req]) + s.pushChan
  }

  /** No request in flight names an id that was ever added or that another request names. */
  ghost predicate FreshRequests(s: State) {
    var rs := Requests(s);
    && s.waits.order.rank.Keys <= s.history.submitted
    && (forall i :: 0 <= i < |rs| ==> Fresh(s.waits, rs[i].node.id, rs[i].deps) && rs[i].node.id in s.history.submitted)
    && (forall i, j :: 0 <= i < j < |rs| ==> rs[i].node.id != rs[j].node.id)
  }

  ghost predicate Sound(s: State) {
    && Refines(s.graph, s.waits)
    && NoNil(s.graph.ready)
    && !s.listener.LCrashed?
    && FreshRequests(s)
  }

  predicate Holds(w: Worker, id: NodeId) {
    (w.WGot? || w.WBusy? || w.WEmitted? || w.WCounted?) && w.id == id
  }

  /** The number of workers holding `id`. */
  function InWorkers(ws: seq<Worker>, id: NodeId): nat {
    if ws == [] then 0 else InWorkers(ws[..|ws| - 1], id) + if Holds(ws[|ws| - 1], id) then 1 else 0
  }

  /** How often `id` occurs in the stages, from the ready channel to the workers. */
  function Stages(s: State, id: NodeId): nat {
    Ids(s.graph.ready)[id]
    + (if s.listener.LGot? && s.listener.id == id then 1 else 0)
    + s.heap[id]
    + (if s.launcher == CBudget(id) || s.launcher == CRecorded(id) then 1 else 0)
    + multiset(s.pool)[id]
    + InWorkers(s.workers, id)
  }

  /** Every live node that waits for nothing is in exactly one stage, and nothing else is in any. */
  ghost predicate Staged(s: State) {
    forall id :: Stages(s, id) == if id in Entry(s.graph) then 1 else 0
  }

  lemma {:induction false} InWorkersUpdate(ws: seq<Worker>, i: nat, w: Worker, id: NodeId)
    requires i < |ws|
    ensures InWorkers(ws[i := w], id) + (if Holds(ws[i], id) then 1 else 0)
            == InWorkers(ws, id) + if Holds(w, id) then 1 else 0
  {
    var n := |ws| - 1;
    if i < n {
      InWorkersUpdate(ws[..n], i, w, id);
      assert ws[i := w][..n] == ws[..n][i := w];
    } else {
      assert ws[i := w][..n] == ws[..n];
    }
  }

  // ---------------------------------------------------------------- frames

  /** What neither the graph, nor the requests, nor the stages depend on may change freely. */
  lemma SafeFrame(s: State, s': State)
    requires Sound(s) && Staged(s)
    requires s'.graph == s.graph && s'.waits == s.waits && s'.history.submitted == s.history.submitted
    requires s'.pusher == s.pusher && s'.pushChan == s.pushChan && s'.listener == s.listener && s'.heap == s.heap
    requires s'.launcher == s.launcher && s'.pool == s.pool && s'.workers == s.workers
    ensures Sound(s') && Staged(s')
  {
    hide Refines, FreshRequests, Staged;
    assert Requests(s') == Requests(s);
    SoundFrame(s, s');
    assert forall id :: Stages(s', id) == Stages(s, id);
    StagedFrame(s, s');
  }

  /** Only the graph, the requests and the submitted ids matter for `Sound`. */
  lemma SoundFrame(s: State, s': State)
    requires Sound(s)
    requires s'.graph == s.graph && s'.waits == s.waits && s'.history.submitted == s.history.submitted
    requires Requests(s') == Requests(s) && !s'.listener.LCrashed?
    ensures Sound(s')
  {
  }

  lemma FreshFrame(s: State, s': State)
    requires FreshRequests(s) && Requests(s') == Requests(s)
    requires s'.waits.order == s.waits.order && s'.history.submitted == s.history.submitted
    ensures FreshRequests(s')
  {
  }

  lemma StagedFrame(s: State, s': State)
    requires Staged(s) && s'.graph == s.graph
    requires forall id :: Stages(s', id) == Stages(s, id)
    ensures Staged(s')
  {
  }

  /** The nodes that leave and the nodes that enter the stages are those that leave and enter the entries. */
  lemma StagedAfter(s: State, s': State, lost: set<NodeId>)
    requires Staged(s)
    requires Entry(s.graph) - lost <= Entry(s'.graph) && lost <= Entry(s.graph) && lost !! Entry(s'.graph)
    requires forall id :: Stages(s', id) + (if id in lost then 1 else 0)
                          == Stages(s, id) + multiset(Entry(s'.graph) - Entry(s.graph))[id]
    ensures Staged(s')
  {
    forall id
      ensures Stages(s', id) == if id in Entry(s'.graph) then 1 else 0
    {
      assert Stages(s, id) == if id in Entry(s.graph) then 1 else 0;
    }
  }

  lemma CountedOnly(g: Graph, g': Graph, w: Waits)
    requires w.stuck.Keys == w.pending.Keys == g.nodes.Keys && Counted(g, w) && g' == g.(ready := g'.ready)
    ensures Counted(g', w)
  {
    hide Total;
    assert forall d :: g'.Kids(d) == g.Kids(d);
    assert ListsAgree(g', w) && TotalsAgree(g', w);
  }

  lemma StampedOnly(g: Graph, g': Graph, w: Waits)
    requires Stamped(g, w) && g' == g.(ready := g'.ready)
    ensures Stamped(g', w)
  {
    assert forall d :: g'.Kids(d) == g.Kids(d);
  }

  lemma EntryOnly(g: Graph, g': Graph)
    requires g' == g.(ready := g'.ready)
    ensures Entry(g') == Entry(g) && (DeadBelowZero(g) ==> DeadBelowZero(g'))
  {
    assert forall x :: g'.Indegree(x) == g.Indegree(x);
  }

  /** The ready channel is no part of the bookkeeping. */
  lemma ReadyOnly(g: Graph, g': Graph, w: Waits)
    requires Refines(g, w) && g' == g.(ready := g'.ready)
    ensures Refines(g', w) && Entry(g') == Entry(g)
  {
    hide Counted, Stamped, DeadBelowZero, Entry;
    CountedOnly(g, g', w);
    StampedOnly(g, g', w);
    EntryOnly(g, g');
  }

  // ---------------------------------------------------------------- push listener

  lemma FreshAfterAdd(s: State, s': State, id: NodeId, deps: seq<NodeId>)
    requires FreshRequests(s) && s'.history.submitted == s.history.submitted
    requires Requests(s) != [] && Requests(s)[1..] == Requests(s')
    requires Requests(s)[0].node.id == id
    requires s'.waits.order.rank.Keys == s.waits.order.rank.Keys + {id}
    ensures FreshRequests(s')
  {
    var rs, rs' := Requests(s), Requests(s');
    forall i | 0 <= i < |rs'|
      ensures Fresh(s'.waits, rs'[i].node.id, rs'[i].deps) && rs'[i].node.id in s'.history.submitted
    {
      assert rs'[i] == rs[i + 1];
    }
  }

  lemma FreshAfterSubmit(s: State, s': State, req: Request)
    requires FreshRequests(s) && s'.waits == s.waits && Requests(s') == Requests(s) + [req]
    requires req.node.id !in s.history.submitted && req.node.id !in req.deps
    requires s'.history.submitted == s.history.submitted + {req.node.id}
    ensures FreshRequests(s')
  {
  }

  lemma SoundAfterAdd(s: State, s': State)
    requires Sound(s) && s.pusher.PAdding? && s'.pusher.PIdle? && s'.pushChan == s.pushChan
    requires Refines(s'.graph, s'.waits) && NoNil(s'.graph.ready)
    requires s'.waits.order.rank.Keys == s.waits.order.rank.Keys + {s.pusher.req.node.id}
    requires s'.listener == s.listener && s'.history.submitted == s.history.submitted
    ensures Sound(s')
  {
    assert Requests(s)[0] == s.pusher.req && Requests(s)[1..] == Requests(s');
    FreshAfterAdd(s, s', s.pusher.req.node.id, s.pusher.req.deps);
  }

  lemma StagedAfterAdd(s: State, s': State)
    requires Staged(s) && Entry(s.graph) <= Entry(s'.graph)
    requires Ids(s'.graph.ready) == Ids(s.graph.ready) + multiset(Entry(s'.graph) - Entry(s.graph))
    requires s'.listener == s.listener && s'.heap == s.heap && s'.launcher == s.launcher
    requires s'.pool == s.pool && s'.workers == s.workers
    ensures Staged(s')
  {
    hide Staged, Entry, Ids;
    StagedAfter(s, s', {});
  }

  lemma PusherFresh(s: State)
    requires FreshRequests(s) && s.pusher.PAdding?
    ensures Fresh(s.waits, s.pusher.req.node.id, s.pusher.req.deps)
  {
    assert Requests(s)[0] == s.pusher.req;
  }

  lemma LiveIsRanked(g: Graph, w: Waits, id: NodeId)
    requires Refines(g, w) && id !in w.order.rank
    ensures id !in g.nodes
  {
  }

  lemma AddRanks(w: Waits, id: NodeId, deps: seq<NodeId>)
    requires w.stuck.Keys == w.pending.Keys
    ensures AddWaits(w, id, deps).order.rank.Keys == w.order.rank.Keys + {id}
  {
  }

  lemma AddSafe(cfg: Config, s: State)
    requires Sound(s) && Staged(s) && CanPush(cfg, s, PushAdd)
    ensures Sound(Push(cfg, s, PushAdd)) && Staged(Push(cfg, s, PushAdd))
  {
    assert s.waits.stuck.Keys == s.waits.pending.Keys;
    hide Refines, FreshRequests, NoNil, Staged, Add, AddWaits, Entry, Ids;
    var Request(node, deps) := s.pusher.req;
    PusherFresh(s);
    LiveIsRanked(s.graph, s.waits, node.id);
    AddRefines(s.graph, s.waits, node, deps);
    AddPublishes(s.graph, node, deps);
    AddRanks(s.waits, node.id, deps);
    AddSafeStep(s, Push(cfg, s, PushAdd));
  }

  lemma AddSafeStep(s: State, s': State)
    requires Sound(s) && Staged(s) && s.pusher.PAdding? && s'.pusher.PIdle? && s'.pushChan == s.pushChan
    requires Refines(s'.graph, s'.waits) && NoNil(s'.graph.ready)
    requires s'.waits.order.rank.Keys == s.waits.order.rank.Keys + {s.pusher.req.node.id}
    requires s'.history.submitted == s.history.submitted
    requires Entry(s.graph) <= Entry(s'.graph)
    requires Ids(s'.graph.ready) == Ids(s.graph.ready) + multiset(Entry(s'.graph) - Entry(s.graph))
    requires s'.listener == s.listener && s'.heap == s.heap && s'.launcher == s.launcher
    requires s'.pool == s.pool && s'.workers == s.workers
    ensures Sound(s') && Staged(s')
  {
    SoundAfterAdd(s, s');
    StagedAfterAdd(s, s');
  }

  lemma PushSafe(cfg: Config, s: State, step: Step)
    requires Sound(s) && Staged(s) && CanPush(cfg, s, step)
    ensures Sound(Push(cfg, s, step)) && Staged(Push(cfg, s, step))
  {
    hide Refines, FreshRequests, NoNil, Staged;
    var s' := Push(cfg, s, step);
    if step.PushAdd? {
      AddSafe(cfg, s);
    } else if step.Submit? {
      assert Requests(s') == Requests(s) + [step.req];
      FreshAfterSubmit(s, s', step.req);
      StagedFrame(s, s');
    } else {
      assert Requests(s') == Requests(s);
      SoundFrame(s, s');
      StagedFrame(s, s');
    }
  }

  // ---------------------------------------------------------------- ready listener, launch controller, Start and Pause

  lemma PopSafe(s: State, s': State)
    requires Sound(s) && Staged(s) && s.graph.ready != [] && s.listener.LIdle?
    requires s' == s.(graph := s.graph.(ready := s.graph.ready[1..]), listener := s'.listener)
    requires s.graph.ready[0].Some? && s'.listener == LGot(s.graph.ready[0].value.id, s.graph.ready[0].value.tokens)
    ensures Sound(s') && Staged(s')
  {
    ReadyOnly(s.graph, s'.graph, s.waits);
    IdsPop(s.graph.ready);
    assert NoNil(s'.graph.ready);
    hide Entry, Refines, FreshRequests, Staged, Ids, NoNil, InWorkers;
    assert Requests(s') == Requests(s);
    FreshFrame(s, s');
    assert Entry(s'.graph) - Entry(s.graph) == {};
    StagedAfter(s, s', {});
  }

  lemma ListenTakeSafe(cfg: Config, s: State)
    requires Sound(s) && Staged(s) && CanListen(cfg, s, ListenTake)
    ensures Sound(Listen(cfg, s, ListenTake)) && Staged(Listen(cfg, s, ListenTake))
  {
    assert s.graph.ready[0] in s.graph.ready;
    hide Refines, FreshRequests, Staged;
    PopSafe(s, Listen(cfg, s, ListenTake));
  }

  lemma ListenSafe(cfg: Config, s: State, step: Step)
    requires Sound(s) && Staged(s) && CanListen(cfg, s, step)
    ensures Sound(Listen(cfg, s, step)) && Staged(Listen(cfg, s, step))
  {
    hide Refines, FreshRequests, NoNil, Staged;
    var s' := Listen(cfg, s, step);
    if step.ListenTake? {
      ListenTakeSafe(cfg, s);
    } else {
      assert Requests(s') == Requests(s);
      SoundFrame(s, s');
      StagedFrame(s, s');
    }
  }

  lemma LaunchSafe(cfg: Config, s: State, step: Step)
    requires Sound(s) && Staged(s) && CanLaunch(cfg, s, step)
    ensures Sound(Launch(cfg, s, step)) && Staged(Launch(cfg, s, step))
  {
    hide Refines, FreshRequests, NoNil, Staged;
    var s' := Launch(cfg, s, step);
    assert Requests(s') == Requests(s);
    SoundFrame(s, s');
    StagedFrame(s, s');
  }

  lemma ControlSafe(cfg: Config, s: State, step: Step)
    requires Sound(s) && Staged(s) && CanControl(cfg, s, step)
    ensures Sound(Control(cfg, s, step)) && Staged(Control(cfg, s, step))
  {
    hide Refines, FreshRequests, NoNil, Staged;
    SafeFrame(s, Control(cfg, s, step));
  }

  // ---------------------------------------------------------------- workers

  /** Worker `i` becomes `w`; between the pool and the worker, no node is lost or doubled, and no other stage moves. */
  ghost predicate WorkerMoved(s: State, s': State, i: nat, w: Worker) {
    && i < |s.workers| && s'.workers == s.workers[i := w]
    && s'.graph == s.graph && s'.waits == s.waits && s'.history.submitted == s.history.submitted
    && s'.pusher == s.pusher && s'.pushChan == s.pushChan && s'.listener == s.listener
    && s'.heap == s.heap && s'.launcher == s.launcher
    && forall id :: multiset(s'.pool)[id] + (if Holds(w, id) then 1 else 0)
                    == multiset(s.pool)[id] + if Holds(s.workers[i], id) then 1 else 0
  }

  /** A worker that moves on without touching the graph still holds what it held. */
  lemma WorkerFrame(s: State, s': State, i: nat, w: Worker)
    requires Sound(s) && Staged(s) && WorkerMoved(s, s', i, w)
    ensures Sound(s') && Staged(s')
  {
    hide Refines, FreshRequests, Staged;
    assert Requests(s') == Requests(s);
    SoundFrame(s, s');
    hide Sound;
    forall id
      ensures Stages(s', id) == Stages(s, id)
    {
      InWorkersUpdate(s.workers, i, w, id);
    }
    StagedFrame(s, s');
  }

  /** What a worker holds is live and waits for nothing. */
  lemma HeldIsEntry(s: State, i: nat, id: NodeId)
    requires Staged(s) && i < |s.workers| && Holds(s.workers[i], id)
    ensures id in Entry(s.graph)
  {
    HeldCounts(s.workers, i, id);
    assert Stages(s, id) == if id in Entry(s.graph) then 1 else 0;
  }

  lemma {:induction false} HeldCounts(ws: seq<Worker>, i: nat, id: NodeId)
    requires i < |ws| && Holds(ws[i], id)
    ensures InWorkers(ws, id) >= 1
  {
    var n := |ws| - 1;
    if i < n {
      HeldCounts(ws[..n], i, id);
    }
  }

  /** The completion callback takes its node out of the last stage and the nodes it releases into the first. */
  lemma SettleSafe(s: State, s': State, i: nat, id: NodeId, left: nat)
    requires Sound(s) && Staged(s) && i < |s.workers| && s.workers[i] == WCounted(id)
    requires s'.workers == s.workers[i := WCancelling(left)]
    requires s'.pusher == s.pusher && s'.pushChan == s.pushChan && s'.listener == s.listener
    requires s'.heap == s.heap && s'.launcher == s.launcher && s'.pool == s.pool
    requires s'.history.submitted == s.history.submitted && s'.waits.order == s.waits.order
    requires Refines(s'.graph, s'.waits) && NoNil(s'.graph.ready)
    requires Entry(s.graph) - {id} <= Entry(s'.graph) && id !in Entry(s'.graph)
    requires Ids(s'.graph.ready) == Ids(s.graph.ready) + multiset(Entry(s'.graph) - Entry(s.graph))
    ensures Sound(s') && Staged(s')
  {
    hide Refines, FreshRequests, NoNil, Entry, Ids, Staged;
    assert Requests(s') == Requests(s);
    assert FreshRequests(s') by {
      FreshFrame(s, s');
    }
    HeldIsEntry(s, i, id);
    forall x
      ensures Stages(s', x) + (if x in {id} then 1 else 0)
              == Stages(s, x) + multiset(Entry(s'.graph) - Entry(s.graph))[x]
    {
      InWorkersUpdate(s.workers, i, WCancelling(left), x);
    }
    StagedAfter(s, s', {id});
  }

  lemma RemoveOrder(w: Waits, id: NodeId)
    ensures RemoveWaits(w, id).order == w.order
  {
  }

  lemma AloneLeft(cfg: Config, s: State, i: nat)
    requires CanWork(cfg, s, WorkRemove(i)) && Refines(s.graph, s.waits)
    requires s.workers[i].id !in cfg.fails || !cfg.propagate
    ensures var id, s' := s.workers[i].id, Callback(cfg, s, i);
            && s'.graph == RemoveNode(s.graph, id, true) && s'.waits == RemoveWaits(s.waits, id)
            && s'.history.submitted == s.history.submitted
            && s' == s.(graph := s'.graph, waits := s'.waits, history := s'.history, workers := s.workers[i := WCancelling(0)])
  {
    hide Refines, RemoveNode, RemoveWaits;
  }

  lemma CallbackAlone(cfg: Config, s: State, i: nat)
    requires Sound(s) && Staged(s) && CanWork(cfg, s, WorkRemove(i))
    requires s.workers[i].id !in cfg.fails || !cfg.propagate
    ensures Sound(Callback(cfg, s, i)) && Staged(Callback(cfg, s, i))
  {
    hide Refines, FreshRequests, NoNil, Staged, Entry, Ids, RemoveNode, RemoveWaits, Callback;
    var id := s.workers[i].id;
    AloneLeft(cfg, s, i);
    RemoveRefines(s.graph, s.waits, id);
    RemovePublishes(s.graph, s.waits, id);
    RemoveOrder(s.waits, id);
    SettleSafe(s, Callback(cfg, s, i), i, id, 0);
  }

  lemma TreeLeft(cfg: Config, s: State, i: nat)
    requires CanWork(cfg, s, WorkRemove(i)) && Refines(s.graph, s.waits)
    requires s.workers[i].id in cfg.fails && cfg.propagate
    ensures var id, s' := s.workers[i].id, Callback(cfg, s, i);
            var (g', removed) := RemoveSubtree(s.graph, id, s.waits.order);
            && s'.graph == g' && s'.waits == CancelWaits(s.waits, Members(removed))
            && s'.history.submitted == s.history.submitted
            && s' == s.(graph := s'.graph, waits := s'.waits, history := s'.history,
                        workers := s.workers[i := WCancelling(|Members(removed) - {id}|)])
  {
    hide Refines, RemoveSubtree, CancelWaits, Members;
  }

  lemma CallbackTree(cfg: Config, s: State, i: nat)
    requires Sound(s) && Staged(s) && CanWork(cfg, s, WorkRemove(i))
    requires s.workers[i].id in cfg.fails && cfg.propagate
    ensures Sound(Callback(cfg, s, i)) && Staged(Callback(cfg, s, i))
  {
    hide Refines, FreshRequests, NoNil, Staged, Entry, Ids, RemoveSubtree, Members, Ranked, CancelWaits, Callback;
    var id := s.workers[i].id;
    TreeLeft(cfg, s, i);
    RefinesRanked(s.graph, s.waits);
    CancelRefines(s.graph, s.waits, id);
    CancelEntry(s.graph, s.waits, id);
    CancelReady(s.graph, s.waits, id);
    var g', gone := RemoveSubtree(s.graph, id, s.waits.order).0, Members(RemoveSubtree(s.graph, id, s.waits.order).1);
    assert Entry(g') - Entry(s.graph) == {};
    CancelOrder(s.waits, gone);
    SettleSafe(s, Callback(cfg, s, i), i, id, |gone - {id}|);
  }

  lemma CancelOrder(w: Waits, gone: set<NodeId>)
    ensures CancelWaits(w, gone).order == w.order
  {
  }

  lemma CancelReady(g: Graph, w: Waits, id: NodeId)
    requires Refines(g, w)
    ensures RemoveSubtree(g, id, w.order).0.ready == g.ready
  {
    RemoveSubtreeExact(g, id, w.order);
  }

  lemma TakeMoves(cfg: Config, s: State, i: nat)
    requires CanWork(cfg, s, WorkTake(i))
    ensures WorkerMoved(s, Begin(cfg, s, WorkTake(i)), i, WGot(s.pool[0]))
  {
    assert s.pool == [s.pool[0]] + s.pool[1..];
  }

  /** The worker keeps what it holds, and the pool is as it was. */
  lemma StaysPut(s: State, s': State, i: nat, w: Worker)
    requires i < |s.workers| && s'.workers == s.workers[i := w] && s'.pool == s.pool
    requires s'.graph == s.graph && s'.waits == s.waits && s'.history == s.history
    requires s'.pusher == s.pusher && s'.pushChan == s.pushChan && s'.listener == s.listener
    requires s'.heap == s.heap && s'.launcher == s.launcher
    requires forall id :: Holds(w, id) <==> Holds(s.workers[i], id)
    ensures WorkerMoved(s, s', i, w)
  {
  }

  lemma BeginMoves(cfg: Config, s: State, step: Step)
    requires CanWork(cfg, s, step) && IsBegin(step)
    ensures step.i < |s.workers| && |Begin(cfg, s, step).workers| == |s.workers|
    ensures WorkerMoved(s, Begin(cfg, s, step), step.i, Begin(cfg, s, step).workers[step.i])
  {
    hide WorkerMoved;
    if step.WorkTake? {
      TakeMoves(cfg, s, step.i);
    } else {
      StaysPut(s, Begin(cfg, s, step), step.i, Begin(cfg, s, step).workers[step.i]);
    }
  }

  lemma EndMoves(cfg: Config, s: State, step: Step)
    requires CanWork(cfg, s, step) && IsEnd(step)
    ensures step.i < |s.workers| && |End(cfg, s, step).workers| == |s.workers|
    ensures WorkerMoved(s, End(cfg, s, step), step.i, End(cfg, s, step).workers[step.i])
  {
    hide WorkerMoved;
    StaysPut(s, End(cfg, s, step), step.i, End(cfg, s, step).workers[step.i]);
  }

  lemma BeginSafe(cfg: Config, s: State, step: Step)
    requires Sound(s) && Staged(s) && CanWork(cfg, s, step) && IsBegin(step)
    ensures Sound(Begin(cfg, s, step)) && Staged(Begin(cfg, s, step))
  {
    hide Sound, Staged, Begin, WorkerMoved;
    BeginMoves(cfg, s, step);
    WorkerFrame(s, Begin(cfg, s, step), step.i, Begin(cfg, s, step).workers[step.i]);
  }

  lemma EndSafe(cfg: Config, s: State, step: Step)
    requires Sound(s) && Staged(s) && CanWork(cfg, s, step) && IsEnd(step)
    ensures Sound(End(cfg, s, step)) && Staged(End(cfg, s, step))
  {
    hide Sound, Staged, End, WorkerMoved;
    EndMoves(cfg, s, step);
    WorkerFrame(s, End(cfg, s, step), step.i, End(cfg, s, step).workers[step.i]);
  }

  lemma WorkSafe(cfg: Config, s: State, step: Step)
    requires Sound(s) && Staged(s) && CanWork(cfg, s, step)
    ensures Sound(Work(cfg, s, step)) && Staged(Work(cfg, s, step))
  {
    hide Refines, FreshRequests, NoNil, Staged, Begin, End, Callback;
    if IsBegin(step) {
      BeginSafe(cfg, s, step);
    } else if IsEnd(step) {
      EndSafe(cfg, s, step);
    } else if s.workers[step.i].id in cfg.fails && cfg.propagate {
      CallbackTree(cfg, s, step.i);
    } else {
      CallbackAlone(cfg, s, step.i);
    }
  }
}
