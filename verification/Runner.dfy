/**
 The scheduler as a step system. Every actor (clients, push listener, ready listener, launch controller, workers, callers
 of Start and Pause) is a program counter, every channel a bounded buffer, and a run is any interleaving of the actors'
 atomic steps. A dispatched node has its completion callback registered in the same step.
 */
module Runner {
  import opened Nodes
  import opened GraphModel
  import opened Waiting

  datatype Config = Config(
    maxGraphSize: nat,      // 0 = unlimited
    pushCap: nat,           // capacities of the channels
    launchCap: nat,
    poolCap: nat,
    workerCount: nat,
    propagate: bool,        // the failure strategy
    fails: set<NodeId>)     // the nodes whose work function returns an error

  datatype Request = Request(node: WorkNode, deps: seq<NodeId>)

  datatype Pusher = PIdle | PChecking(req: Request) | PWaiting(req: Request) | PAdding(req: Request)

  datatype Listener = LIdle | LGot(id: NodeId, tokens: nat) | LOwes | LCrashed

  datatype Launcher = CIdle | CSignalled | CAwake | CBudget(id: NodeId) | CRecorded(id: NodeId) | CDispatched

  datatype Worker =
    | WIdle
    | WGot(id: NodeId)          // received from the pool
    | WBusy(id: NodeId)         // marked busy, work function running
    | WEmitted(id: NodeId)      // result sent, callback entered
    | WCounted(id: NodeId)      // completed or failed counter raised
    | WCancelling(left: nat)    // graph updated, cancelled descendants still to count
    | WNotifying
    | WFinishing

  /** What the clients submitted, and how each node left the graph. */
  datatype History = History(
    submitted: set<NodeId>,
    pushed: map<NodeId, WorkNode>,   // the nodes as their clients submitted them
    done: set<NodeId>,         // removed after success
    bad: set<NodeId>,          // removed after its own failure
    cancelled: set<NodeId>,    // removed because an ancestor failed
    grounded: bool,            // every dependency was live when its node was added
    covered: bool)             // a resume has not been paused since, and dropped no signal

  /** What the worker pool keeps about its workers. */
  datatype PoolBooks = PoolBooks(busyWorkers: int, workerState: map<nat, bool>, workerNode: map<nat, NodeId>)

  datatype State = State(
    graph: Graph,
    waits: Waits,
    pushChan: seq<Request>,
    pusher: Pusher,
    notify: bool,              // graphSpaceNotify, capacity 1
    listener: Listener,
    heap: multiset<NodeId>,
    priority: map<NodeId, nat>, // the priorities with which nodes were queued
    launchpad: nat,
    launcher: Launcher,
    paused: bool,
    owed: nat,                 // signals the resend loop of Start still has to offer
    pool: seq<NodeId>,
    workers: seq<Worker>,
    books: PoolBooks,
    results: multiset<NodeId>, // results sent and not received
    completed: nat,
    failed: nat,
    launched: nat,
    history: History)

  function Init(cfg: Config): State {
    State(EMPTY, NOTHING, [], PIdle, false, LIdle, multiset{}, map[], 0, CIdle, true, 0, [],
          seq(cfg.workerCount, _ => WIdle), PoolBooks(0, map[], map[]), multiset{}, 0, 0, 0,
          History({}, map[], {}, {}, {}, true, false))
  }

  datatype Step =
    | Submit(req: Request) | PushTake | PushCheck | PushWake | PushAdd
    | ListenTake | ListenQueue | ListenSignal
    | LaunchTake | LaunchPauseCheck | LaunchPop(id: NodeId) | LaunchEmpty | LaunchGrant | LaunchDispatch | LaunchCount
    | WorkTake(i: nat) | WorkMark(i: nat) | WorkEmit(i: nat) | WorkCount(i: nat) | WorkRemove(i: nat)
    | WorkCancel(i: nat) | WorkNotify(i: nat) | WorkFinish(i: nat)
    | Start | StartSignal | Pause

  /** The priority with which `id` was queued. */
  function Priority(s: State, id: NodeId): nat {
    if id in s.priority then s.priority[id] else 0
  }

  /** Full means the listener has to wait for space. */
  predicate Full(cfg: Config, s: State) {
    cfg.maxGraphSize > 0 && |s.graph.nodes| >= cfg.maxGraphSize
  }

  // ---------------------------------------------------------------- clients and push listener

  predicate CanPush(cfg: Config, s: State, step: Step) {
    match step
    case Submit(req) =>
      |s.pushChan| < cfg.pushCap && req.node.id !in s.history.submitted && req.node.id !in req.deps
    case PushTake => s.pusher.PIdle? && s.pushChan != []
    case PushCheck => s.pusher.PChecking?
    case PushWake => s.pusher.PWaiting? && s.notify
    case PushAdd => s.pusher.PAdding?
    case _ => false
  }

  function Push(cfg: Config, s: State, step: Step): State
    requires CanPush(cfg, s, step) && Refines(s.graph, s.waits)
  {
    match step
    case Submit(req) =>
      s.(pushChan := s.pushChan + [req], history := s.history.(submitted := s.history.submitted + {req.node.id},
                                                                     pushed := s.history.pushed[req.node.id := req.node]))
    case PushTake => s.(pusher := PChecking(s.pushChan[0]), pushChan := s.pushChan[1..])
    case PushCheck => s.(pusher := if Full(cfg, s) then PWaiting(s.pusher.req) else PAdding(s.pusher.req))
    case PushWake => s.(pusher := PChecking(s.pusher.req), notify := false)
    case PushAdd =>
      var Request(node, deps) := s.pusher.req;
      s.(graph := Add(s.graph, node, deps),
         waits := AddWaits(s.waits, node.id, deps),
         pusher := PIdle,
         history := s.history.(grounded := s.history.grounded && forall d <- deps :: d in s.graph.nodes))
  }

  // ---------------------------------------------------------------- ready listener

  predicate CanListen(cfg: Config, s: State, step: Step) {
    match step
    case ListenTake => s.listener.LIdle? && s.graph.ready != []
    case ListenQueue => s.listener.LGot?
    case ListenSignal => s.listener.LOwes? && s.launchpad < cfg.launchCap
    case _ => false
  }

  function Listen(cfg: Config, s: State, step: Step): State
    requires CanListen(cfg, s, step)
  {
    match step
    case ListenTake =>
      var node := s.graph.ready[0];
      s.(graph := s.graph.(ready := s.graph.ready[1..]),
         listener := if node.Some? then LGot(node.value.id, node.value.tokens) else LCrashed)
    case ListenQueue =>
      s.(heap := s.heap + multiset{s.listener.id}, priority := s.priority[s.listener.id := s.listener.tokens], listener := LOwes)
    case ListenSignal => s.(launchpad := s.launchpad + 1, listener := LIdle)
  }

  // ---------------------------------------------------------------- launch controller

  predicate CanLaunch(cfg: Config, s: State, step: Step) {
    match step
    case LaunchTake => s.launcher.CIdle? && s.launchpad > 0
    case LaunchPauseCheck => s.launcher.CSignalled?
    case LaunchPop(id) => s.launcher.CAwake? && id in s.heap && forall x <- s.heap :: Priority(s, x) <= Priority(s, id)
    case LaunchEmpty => s.launcher.CAwake? && s.heap == multiset{}
    case LaunchGrant => s.launcher.CBudget?
    case LaunchDispatch => s.launcher.CRecorded? && |s.pool| < cfg.poolCap
    case LaunchCount => s.launcher.CDispatched?
    case _ => false
  }

  function Launch(cfg: Config, s: State, step: Step): State
    requires CanLaunch(cfg, s, step)
  {
    match step
    case LaunchTake => s.(launchpad := s.launchpad - 1, launcher := CSignalled)
    case LaunchPauseCheck => s.(launcher := if s.paused then CIdle else CAwake)
    case LaunchPop(id) => s.(heap := s.heap - multiset{id}, launcher := CBudget(id))
    case LaunchEmpty => s.(launcher := CIdle)
    case LaunchGrant => s.(launcher := CRecorded(s.launcher.id))
    case LaunchDispatch => s.(pool := s.pool + [s.launcher.id], launcher := CDispatched)
    case LaunchCount => s.(launched := s.launched + 1, launcher := CIdle)
  }

  // ---------------------------------------------------------------- workers

  predicate CanWork(cfg: Config, s: State, step: Step) {
    match step
    case WorkTake(i) => i < |s.workers| && s.workers[i].WIdle? && s.pool != []
    case WorkMark(i) => i < |s.workers| && s.workers[i].WGot?
    case WorkEmit(i) => i < |s.workers| && s.workers[i].WBusy? && s.results[s.workers[i].id] == 0
    case WorkCount(i) => i < |s.workers| && s.workers[i].WEmitted?
    case WorkRemove(i) => i < |s.workers| && s.workers[i].WCounted?
    case WorkCancel(i) => i < |s.workers| && s.workers[i].WCancelling?
    case WorkNotify(i) => i < |s.workers| && s.workers[i].WNotifying?
    case WorkFinish(i) => i < |s.workers| && s.workers[i].WFinishing?
    case _ => false
  }

  /** `changeBusyState`. */
  function MarkBusy(s: State, i: nat, id: NodeId): State {
    s.(books := PoolBooks(s.books.busyWorkers + 1, s.books.workerState[i := true], s.books.workerNode[i := id]))
  }

  function MarkIdle(s: State, i: nat): State {
    s.(books := PoolBooks(s.books.busyWorkers - 1, s.books.workerState[i := false], s.books.workerNode - {i}))
  }

  /** `id` alone left the graph. */
  function LeftAlone(cfg: Config, s: State, id: NodeId, g': Graph): State {
    var h := s.history;
    s.(graph := g', waits := RemoveWaits(s.waits, id),
       history := if id in cfg.fails then h.(bad := h.bad + {id}) else h.(done := h.done + {id}))
  }

  /** `id` failed and left the graph with everything in `gone`. */
  function LeftWith(s: State, id: NodeId, g': Graph, gone: set<NodeId>): State {
    var h := s.history;
    s.(graph := g', waits := CancelWaits(s.waits, gone),
       history := h.(bad := h.bad + {id}, cancelled := h.cancelled + (gone - {id})))
  }

  /** The graph update of the completion callback, and the number of descendants it cancels. */
  ghost function Settle(cfg: Config, s: State, id: NodeId): (State, nat)
    requires Refines(s.graph, s.waits)
  {
    if id in cfg.fails && cfg.propagate then
      var (g', removed) := RemoveSubtree(s.graph, id, s.waits.order);
      (LeftWith(s, id, g', Members(removed)), |Members(removed) - {id}|)
    else
      (LeftAlone(cfg, s, id, RemoveNode(s.graph, id, true)), 0)
  }

  predicate IsBegin(step: Step) {
    step.WorkTake? || step.WorkMark? || step.WorkEmit? || step.WorkCount?
  }

  /** From the pool to the first line of the callback. */
  function Begin(cfg: Config, s: State, step: Step): State
    requires CanWork(cfg, s, step) && IsBegin(step)
  {
    match step
    case WorkTake(i) => s.(workers := s.workers[i := WGot(s.pool[0])], pool := s.pool[1..])
    case WorkMark(i) => MarkBusy(s.(workers := s.workers[i := WBusy(s.workers[i].id)]), i, s.workers[i].id)
    case WorkEmit(i) =>
      s.(workers := s.workers[i := WEmitted(s.workers[i].id)], results := s.results + multiset{s.workers[i].id})
    case WorkCount(i) =>
      var id := s.workers[i].id;
      var s' := s.(workers := s.workers[i := WCounted(id)]);
      if id in cfg.fails then s'.(failed := s.failed + 1) else s'.(completed := s.completed + 1)
  }

  ghost function Callback(cfg: Config, s: State, i: nat): State
    requires CanWork(cfg, s, WorkRemove(i)) && Refines(s.graph, s.waits)
  {
    var (s', left) := Settle(cfg, s, s.workers[i].id);
    s'.(workers := s.workers[i := WCancelling(left)])
  }

  predicate IsEnd(step: Step) {
    step.WorkCancel? || step.WorkNotify? || step.WorkFinish?
  }

  /** From the graph update to the next node. */
  function End(cfg: Config, s: State, step: Step): State
    requires CanWork(cfg, s, step) && IsEnd(step)
  {
    match step
    case WorkCancel(i) =>
      if s.workers[i].left == 0 then s.(workers := s.workers[i := WNotifying])
      else s.(workers := s.workers[i := WCancelling(s.workers[i].left - 1)], failed := s.failed + 1)
    case WorkNotify(i) => s.(workers := s.workers[i := WFinishing], notify := true)
    case WorkFinish(i) => MarkIdle(s.(workers := s.workers[i := WIdle]), i)
  }

  ghost function Work(cfg: Config, s: State, step: Step): State
    requires CanWork(cfg, s, step) && Refines(s.graph, s.waits)
  {
    if IsBegin(step) then Begin(cfg, s, step)
    else if IsEnd(step) then End(cfg, s, step)
    else Callback(cfg, s, step.i)
  }

  // ---------------------------------------------------------------- Start and Pause

  predicate CanControl(cfg: Config, s: State, step: Step) {
    match step
    case Start => true
    case StartSignal => s.owed > 0
    case Pause => true
    case _ => false
  }

  function Control(cfg: Config, s: State, step: Step): State
    requires CanControl(cfg, s, step)
  {
    match step
    case Start =>
      if s.paused then s.(paused := false, owed := s.owed + |s.heap|, history := s.history.(covered := true)) else s
    case StartSignal =>
      if s.launchpad < cfg.launchCap then s.(owed := s.owed - 1, launchpad := s.launchpad + 1)
      else s.(owed := s.owed - 1, history := s.history.(covered := false))
    case Pause => s.(paused := true, history := s.history.(covered := false))
  }

  // ---------------------------------------------------------------- runs

  predicate Enabled(cfg: Config, s: State, step: Step) {
    CanPush(cfg, s, step) || CanListen(cfg, s, step) || CanLaunch(cfg, s, step) || CanWork(cfg, s, step)
    || CanControl(cfg, s, step)
  }

  ghost function Next(cfg: Config, s: State, step: Step): State
    requires Refines(s.graph, s.waits) && Enabled(cfg, s, step)
  {
    if CanPush(cfg, s, step) then Push(cfg, s, step)
    else if CanListen(cfg, s, step) then Listen(cfg, s, step)
    else if CanLaunch(cfg, s, step) then Launch(cfg, s, step)
    else if CanWork(cfg, s, step) then Work(cfg, s, step)
    else Control(cfg, s, step)
  }
}
