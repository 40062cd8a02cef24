/**
 A resume can strand nodes. The resend loop of `Start` offers one signal per queued node without blocking, so those that
 find the launchpad full are dropped, and the nodes left over are never started.
 */
module RunnerStranded {
  import opened Nodes
  import opened GraphModel
  import opened Waiting
  import opened Runner
  import opened Subtree
  import opened RunnerSafety
  import opened RunnerLedger
  import opened RunnerBooks
  import opened RunnerRuns
  import opened RunnerSlots
  import opened RunnerTheorems
  import opened RunnerProgress

  // ---------------------------------------------------------------- a queued node without a signal stays queued

  /**
   Of `k` nodes submitted, more are queued than signals are left, and no node will become ready, although nobody is paused
   and every dependency was live when its node was added.
   */
  ghost predicate Stranded(s: State, k: nat) {
    && !s.paused && s.owed == 0
    && |s.heap| > s.launchpad + (if s.launcher.CSignalled? || s.launcher.CAwake? then 1 else 0)
    && s.graph.ready == [] && s.listener.LIdle?
    && s.pushChan == [] && s.pusher.PIdle?
    && s.graph.nodes.Keys == Entry(s.graph)
    && s.history.grounded && |s.history.submitted| == k
  }

  /** A removal among nodes that are all ready makes no other node ready. */
  lemma NothingNew(g: Graph, g': Graph, id: NodeId)
    requires g.ready == [] && g.nodes.Keys == Entry(g) && g'.nodes.Keys <= g.nodes.Keys - {id}
    requires NoNil(g'.ready) && Ids(g'.ready) == Ids(g.ready) + multiset(Entry(g') - Entry(g))
    requires Entry(g) - {id} <= Entry(g') <= g'.nodes.Keys
    ensures g'.ready == [] && g'.nodes.Keys == Entry(g')
  {
    hide Entry;
    assert Entry(g') - Entry(g) == {};
    IdsSize(g'.ready);
  }

  lemma AloneStranded(cfg: Config, s: State, i: nat, k: nat)
    requires CanWork(cfg, s, WorkRemove(i)) && Refines(s.graph, s.waits) && NoNil(s.graph.ready) && Stranded(s, k)
    requires s.workers[i].id !in cfg.fails || !cfg.propagate
    ensures Stranded(Callback(cfg, s, i), k)
  {
    var g, id := s.graph, s.workers[i].id;
    var g' := RemoveNode(g, id, true);
    RemovePublishes(g, s.waits, id);
    RemoveUnlinks(g, id, true);
    assert g'.nodes.Keys == g.nodes.Keys - {id};
    assert Entry(g') <= g'.nodes.Keys;
    hide Refines, RemoveNode, RemoveWaits, Entry, NoNil;
    NothingNew(g, g', id);
  }

  lemma TreeStranded(cfg: Config, s: State, i: nat, k: nat)
    requires CanWork(cfg, s, WorkRemove(i)) && Refines(s.graph, s.waits) && Stranded(s, k)
    requires s.workers[i].id in cfg.fails && cfg.propagate && s.workers[i].id in s.graph.nodes
    ensures Stranded(Callback(cfg, s, i), k)
  {
    var g, id := s.graph, s.workers[i].id;
    RefinesRanked(g, s.waits);
    CancelEntry(g, s.waits, id);
    CancelReady(g, s.waits, id);
    RemovedKeys(g, s.waits, id);
    var g' := RemoveSubtree(g, id, s.waits.order).0;
    assert Entry(g') <= g'.nodes.Keys;
    hide Refines, RemoveSubtree, CancelWaits, Members, Entry, Ranked;
    assert g'.nodes.Keys <= g.nodes.Keys - {id};
    assert g'.nodes.Keys == Entry(g');
  }

  /** Nobody but the launch controller and the workers has anything to do. */
  lemma OnlyThose(cfg: Config, s: State, step: Step, k: nat)
    requires Stranded(s, k) && Enabled(cfg, s, step) && Internal(step)
    ensures CanLaunch(cfg, s, step) || CanWork(cfg, s, step)
    ensures !CanPush(cfg, s, step) && !CanListen(cfg, s, step)
  {
    hide Entry;
  }

  lemma LaunchStranded(cfg: Config, s: State, step: Step, k: nat)
    requires Stranded(s, k) && CanLaunch(cfg, s, step)
    ensures Stranded(Launch(cfg, s, step), k)
  {
    hide Entry;
  }

  lemma WorkerStranded(cfg: Config, s: State, step: Step, k: nat)
    requires Stranded(s, k) && CanWork(cfg, s, step) && (IsBegin(step) || IsEnd(step))
    ensures Stranded(if IsBegin(step) then Begin(cfg, s, step) else End(cfg, s, step), k)
  {
    hide Stranded;
    StrandedFrame(s, if IsBegin(step) then Begin(cfg, s, step) else End(cfg, s, step), k);
  }

  lemma StrandedFrame(s: State, s': State, k: nat)
    requires Stranded(s, k) && s'.paused == s.paused && s'.owed == s.owed && s'.heap == s.heap && s'.history == s.history
    requires s'.launchpad == s.launchpad && s'.launcher == s.launcher && s'.graph == s.graph && s'.listener == s.listener
    requires s'.pushChan == s.pushChan && s'.pusher == s.pusher
    ensures Stranded(s', k)
  {
  }

  lemma StrandedStep(cfg: Config, s: State, step: Step, k: nat)
    requires Sound(s) && Staged(s) && Enabled(cfg, s, step) && Internal(step) && Stranded(s, k)
    ensures Stranded(Next(cfg, s, step), k)
  {
    OnlyThose(cfg, s, step, k);
    hide Staged, Refines, FreshRequests, NoNil, Callback, Begin, End, Launch, Stranded, Entry, CanPush, CanListen, CanLaunch;
    if CanLaunch(cfg, s, step) {
      LaunchStranded(cfg, s, step, k);
    } else if IsBegin(step) || IsEnd(step) {
      WorkerStranded(cfg, s, step, k);
    } else {
      HeldIsEntry(s, step.i, s.workers[step.i].id);
      EntryIsLive(s.graph);
      if s.workers[step.i].id in cfg.fails && cfg.propagate {
        TreeStranded(cfg, s, step.i, k);
      } else {
        AloneStranded(cfg, s, step.i, k);
      }
    }
  }

  lemma EntryIsLive(g: Graph)
    ensures Entry(g) <= g.nodes.Keys
  {
  }

  lemma InvStranded(cfg: Config, s: State, step: Step, k: nat)
    requires Inv(cfg, s) && Enabled(cfg, s, step) && Internal(step) && Stranded(s, k)
    ensures Stranded(Next(cfg, s, step), k)
  {
    hide Sound, Staged, Partition, NoneLost, Ledger, Enabled, Next, Stranded;
    StrandedStep(cfg, s, step, k);
  }

  /** Whatever the actors do from there, some queued node is never started. */
  lemma {:induction false} StrandedForever(cfg: Config, steps: seq<Step>, more: seq<Step>, k: nat)
    requires Exec(cfg, steps + more).Some? && (forall step <- more :: Internal(step))
    requires Exec(cfg, steps).Some? && Stranded(Exec(cfg, steps).value, k)
    ensures Stranded(Exec(cfg, steps + more).value, k)
    decreases |more|
  {
    hide Inv, Exec, Enabled, Next;
    if more == [] {
      assert steps + more == steps;
    } else {
      var front, last := more[..|more| - 1], more[|more| - 1];
      assert more == front + [last] && last in more;
      ExecMore(cfg, steps, front, last);
      StrandedForever(cfg, steps, front, k);
      InvStranded(cfg, Exec(cfg, steps + front).value, last, k);
    }
  }

  // ---------------------------------------------------------------- how a run gets there

  lemma OneMore(cfg: Config, steps: seq<Step>, step: Step)
    requires Exec(cfg, steps).Some? && Enabled(cfg, Exec(cfg, steps).value, step)
    ensures Exec(cfg, steps + [step]) == Some(Next(cfg, Exec(cfg, steps).value, step))
  {
    hide Inv, Exec, Enabled, Next;
    assert steps + ([] + [step]) == steps + [step] && steps + [] == steps;
    ExecMore(cfg, steps, [], step);
  }

  function WithNode(s: State, node: WorkNode): (r: State)
    requires s.waits.stuck.Keys == s.waits.pending.Keys
    ensures r.waits.stuck.Keys == r.waits.pending.Keys
  {
    s.(graph := Add(s.graph, node, []), waits := AddWaits(s.waits, node.id, []),
       history := s.history.(submitted := s.history.submitted + {node.id}, pushed := s.history.pushed[node.id := node]))
  }

  /** A client submits a node without dependencies, and the push listener adds it. */
  lemma Pushing(cfg: Config, steps: seq<Step>, node: WorkNode)
    requires cfg.pushCap > 0 && Exec(cfg, steps).Some? && !Full(cfg, Exec(cfg, steps).value)
    requires var s := Exec(cfg, steps).value;
             s.pushChan == [] && s.pusher.PIdle? && node.id !in s.history.submitted && s.waits.stuck.Keys == s.waits.pending.Keys
    ensures var req := Request(node, []);
            Exec(cfg, steps + [Submit(req)] + [PushTake] + [PushCheck] + [PushAdd]) == Some(WithNode(Exec(cfg, steps).value, node))
  {
    hide Inv, Exec, Refines, Add, AddWaits;
    var req := Request(node, []);
    OneMore(cfg, steps, Submit(req));
    OneMore(cfg, steps + [Submit(req)], PushTake);
    OneMore(cfg, steps + [Submit(req)] + [PushTake], PushCheck);
    OneMore(cfg, steps + [Submit(req)] + [PushTake] + [PushCheck], PushAdd);
  }

  /** The ready listener queues it and signals; the launch controller throws the signal away, being paused. */
  lemma QueuedUnseen(cfg: Config, steps: seq<Step>, node: WorkNode)
    requires cfg.launchCap > 0 && Exec(cfg, steps).Some?
    requires var s := Exec(cfg, steps).value;
             s.graph.ready == [Some(node)] && s.listener.LIdle? && s.launchpad == 0 && s.launcher.CIdle? && s.paused
    ensures var s := Exec(cfg, steps).value;
            Exec(cfg, steps + [ListenTake] + [ListenQueue] + [ListenSignal] + [LaunchTake] + [LaunchPauseCheck])
            == Some(s.(graph := s.graph.(ready := []), heap := s.heap + multiset{node.id}, priority := s.priority[node.id := node.tokens]))
  {
    hide Inv, Exec, Refines;
    OneMore(cfg, steps, ListenTake);
    OneMore(cfg, steps + [ListenTake], ListenQueue);
    OneMore(cfg, steps + [ListenTake] + [ListenQueue], ListenSignal);
    OneMore(cfg, steps + [ListenTake] + [ListenQueue] + [ListenSignal], LaunchTake);
    OneMore(cfg, steps + [ListenTake] + [ListenQueue] + [ListenSignal] + [LaunchTake], LaunchPauseCheck);
  }

  function Queueing(node: WorkNode): seq<Step> {
    [Submit(Request(node, []))] + [PushTake] + [PushCheck] + [PushAdd]
    + [ListenTake] + [ListenQueue] + [ListenSignal] + [LaunchTake] + [LaunchPauseCheck]
  }

  function Queued(s: State, node: WorkNode): (r: State)
    requires s.waits.stuck.Keys == s.waits.pending.Keys
    ensures r.waits.stuck.Keys == r.waits.pending.Keys
  {
    var added := WithNode(s, node);
    added.(graph := added.graph.(ready := []), heap := s.heap + multiset{node.id}, priority := s.priority[node.id := node.tokens])
  }

  lemma WithNodeReady(s: State, node: WorkNode)
    requires s.graph.ready == [] && s.waits.stuck.Keys == s.waits.pending.Keys
    ensures var r := WithNode(s, node);
            && r.graph.ready == [Some(node)] && r.heap == s.heap && r.priority == s.priority && r.listener == s.listener && r.launchpad == s.launchpad
            && r.launcher == s.launcher && r.paused == s.paused
  {
  }

  /** Both together. */
  lemma QueueingWhilePaused(cfg: Config, steps: seq<Step>, node: WorkNode)
    requires cfg.pushCap > 0 && cfg.launchCap > 0 && Exec(cfg, steps).Some? && !Full(cfg, Exec(cfg, steps).value)
    requires var s := Exec(cfg, steps).value;
             && s.pushChan == [] && s.pusher.PIdle? && node.id !in s.history.submitted
             && s.graph.ready == [] && s.listener.LIdle? && s.launchpad == 0 && s.launcher.CIdle? && s.paused
             && s.waits.stuck.Keys == s.waits.pending.Keys
    ensures Exec(cfg, steps + Queueing(node)) == Some(Queued(Exec(cfg, steps).value, node))
  {
    hide Inv, Exec, Refines, WithNode;
    WithNodeReady(Exec(cfg, steps).value, node);
    var pushing := steps + [Submit(Request(node, []))] + [PushTake] + [PushCheck] + [PushAdd];
    Pushing(cfg, steps, node);
    QueuedUnseen(cfg, pushing, node);
    assert steps + Queueing(node)
           == pushing + [ListenTake] + [ListenQueue] + [ListenSignal] + [LaunchTake] + [LaunchPauseCheck];
  }

  /** Paused with `k` nodes queued, every live node ready, and nothing else going on. */
  ghost predicate Parked(s: State, k: nat) {
    && s.paused && s.owed == 0 && s.launchpad == 0 && s.launcher.CIdle?
    && s.graph.ready == [] && s.listener.LIdle?
    && s.pushChan == [] && s.pusher.PIdle?
    && s.graph.nodes.Keys == Entry(s.graph) && |s.heap| == |s.graph.nodes.Keys| == |s.history.submitted| == k
    && s.waits.stuck.Keys == s.waits.pending.Keys && s.history.grounded
  }

  lemma QueuedEntries(g: Graph, node: WorkNode)
    requires g.nodes.Keys == Entry(g) && node.id !in g.nodes
    ensures var g' := Add(g, node, []).(ready := []);
            g'.nodes.Keys == Entry(g') == g.nodes.Keys + {node.id}
  {
    AddPublishes(g, node, []);
    assert Entry(Add(g, node, []).(ready := [])) == Entry(Add(g, node, []));
  }

  lemma OneMoreParked(s: State, node: WorkNode, k: nat)
    requires Parked(s, k) && node.id !in s.graph.nodes.Keys && node.id !in s.history.submitted
    ensures Parked(Queued(s, node), k + 1)
  {
    QueuedEntries(s.graph, node);
    hide Entry, AddWaits, Add;
    assert |s.graph.nodes.Keys + {node.id}| == |s.history.submitted + {node.id}| == k + 1;
  }

  function NodeIds(nodes: seq<WorkNode>): set<NodeId> {
    set node | node in nodes :: node.id
  }

  predicate Distinct(nodes: seq<WorkNode>) {
    forall i, j :: 0 <= i < j < |nodes| ==> nodes[i].id != nodes[j].id
  }

  function QueueingAll(nodes: seq<WorkNode>): seq<Step> {
    if nodes == [] then [] else QueueingAll(nodes[..|nodes| - 1]) + Queueing(nodes[|nodes| - 1])
  }

  /** Any number of nodes that the graph has room for can be queued before the first resume. */
  lemma {:induction false} ParkAll(cfg: Config, nodes: seq<WorkNode>)
    requires cfg.pushCap > 0 && cfg.launchCap > 0 && Distinct(nodes)
    requires cfg.maxGraphSize == 0 || |nodes| <= cfg.maxGraphSize
    ensures var r := Exec(cfg, QueueingAll(nodes));
            && r.Some? && Parked(r.value, |nodes|)
            && r.value.history.submitted == NodeIds(nodes) == r.value.graph.nodes.Keys
  {
    hide Inv, Exec, Refines, Queueing, Parked, AddWaits, Add;
    if nodes == [] {
      ParkedAtFirst(cfg);
    } else {
      var front, last := nodes[..|nodes| - 1], nodes[|nodes| - 1];
      assert nodes == front + [last];
      NotAmong(front, last, nodes);
      ParkAll(cfg, front);
      ParkOne(cfg, QueueingAll(front), last, |front|);
    }
  }

  lemma ParkOne(cfg: Config, steps: seq<Step>, last: WorkNode, k: nat)
    requires cfg.pushCap > 0 && cfg.launchCap > 0 && (cfg.maxGraphSize == 0 || k < cfg.maxGraphSize)
    requires Exec(cfg, steps).Some? && Parked(Exec(cfg, steps).value, k)
    requires last.id !in Exec(cfg, steps).value.history.submitted && last.id !in Exec(cfg, steps).value.graph.nodes.Keys
    ensures var s, r := Exec(cfg, steps).value, Exec(cfg, steps + Queueing(last));
            && r.Some? && Parked(r.value, k + 1)
            && r.value.history.submitted == s.history.submitted + {last.id}
            && r.value.graph.nodes.Keys == s.graph.nodes.Keys + {last.id}
  {
    hide Inv, Exec, Refines, Queueing, Parked, AddWaits;
    ParkedIsReady(Exec(cfg, steps).value, k);
    QueueingWhilePaused(cfg, steps, last);
    OneMoreParked(Exec(cfg, steps).value, last, k);
  }

  lemma NotAmong(front: seq<WorkNode>, last: WorkNode, nodes: seq<WorkNode>)
    requires nodes == front + [last] && Distinct(nodes)
    ensures last.id !in NodeIds(front) && Distinct(front) && NodeIds(nodes) == NodeIds(front) + {last.id}
  {
    assert forall i :: 0 <= i < |front| ==> front[i] == nodes[i];
    forall node | node in front
      ensures node.id != last.id
    {
      var i :| 0 <= i < |front| && front[i] == node;
      assert nodes[i].id != nodes[|front|].id;
    }
  }

  lemma ParkedAtFirst(cfg: Config)
    ensures Exec(cfg, []) == Some(Init(cfg)) && Parked(Init(cfg), 0)
    ensures Init(cfg).history.submitted == NodeIds([]) == Init(cfg).graph.nodes.Keys
  {
  }

  lemma ParkedIsReady(s: State, k: nat)
    requires Parked(s, k)
    ensures |s.graph.nodes| == k
    ensures s.pushChan == [] && s.pusher.PIdle? && s.graph.ready == [] && s.listener.LIdle? && s.launchpad == 0
    ensures s.launcher.CIdle? && s.paused && s.waits.stuck.Keys == s.waits.pending.Keys
  {
  }

  // ---------------------------------------------------------------- the resume

  function Signalling(n: nat): seq<Step> {
    if n == 0 then [] else Signalling(n - 1) + [StartSignal]
  }

  /** The resend loop after `n` of its offers: the launchpad takes what fits. */
  lemma {:induction false} Resending(cfg: Config, steps: seq<Step>, n: nat)
    requires Exec(cfg, steps).Some?
    requires var s := Exec(cfg, steps).value; s.launchpad == 0 && n <= s.owed
    ensures var s, r := Exec(cfg, steps).value, Exec(cfg, steps + Signalling(n));
            && r.Some? && r.value.launchpad == (if n <= cfg.launchCap then n else cfg.launchCap)
            && r.value == s.(owed := s.owed - n, launchpad := r.value.launchpad, history := r.value.history)
            && r.value.history == s.history.(covered := r.value.history.covered)
  {
    hide Inv, Exec, Refines;
    if n == 0 {
      assert steps + Signalling(0) == steps;
    } else {
      Resending(cfg, steps, n - 1);
      OneMore(cfg, steps + Signalling(n - 1), StartSignal);
      assert steps + Signalling(n) == steps + Signalling(n - 1) + [StartSignal];
    }
  }

  /** A resume with more nodes queued than the launchpad has slots. */
  lemma ResumeStarves(cfg: Config, steps: seq<Step>, k: nat)
    requires cfg.launchCap < k && Exec(cfg, steps).Some? && Parked(Exec(cfg, steps).value, k)
    ensures var r := Exec(cfg, steps + [Start] + Signalling(k)); r.Some? && Stranded(r.value, k)
  {
    hide Inv, Exec, Refines, Entry;
    OneMore(cfg, steps, Start);
    Resending(cfg, steps + [Start], k);
  }

  function Resumed(nodes: seq<WorkNode>): seq<Step> {
    QueueingAll(nodes) + [Start] + Signalling(|nodes|)
  }

  /**
   Push any nodes, more than the launchpad has slots, before the first resume, and let the launch controller discard their
   signals before that. Whatever the actors do after the resume, with no pause in the whole run, some node stays queued.
   */
  lemma QueuedTooMany(cfg: Config, nodes: seq<WorkNode>, more: seq<Step>)
    requires cfg.pushCap > 0 && 0 < cfg.launchCap < |nodes| && Distinct(nodes)
    requires cfg.maxGraphSize == 0 || |nodes| <= cfg.maxGraphSize
    requires forall step <- more :: Internal(step)
    ensures Exec(cfg, Resumed(nodes)).Some?
    ensures Exec(cfg, Resumed(nodes) + more).Some? ==> Stranded(Exec(cfg, Resumed(nodes) + more).value, |nodes|)
  {
    hide Inv, Exec, Refines, QueueingAll, Signalling, Parked, Stranded;
    ParkAll(cfg, nodes);
    ResumeStarves(cfg, QueueingAll(nodes), |nodes|);
    if Exec(cfg, Resumed(nodes) + more).Some? {
      StrandedForever(cfg, Resumed(nodes), more, |nodes|);
    }
  }

  // ---------------------------------------------------------------- when a node can be stranded

  /**
   A run that ends with no actor able to move, nobody paused, every dependency live when its node was added, at most `n`
   nodes submitted, and one of them still live.
   */
  ghost predicate StrandsAt(cfg: Config, n: nat, steps: seq<Step>) {
    && Exec(cfg, steps).Some?
    && var s := Exec(cfg, steps).value;
       !s.paused && Quiescent(cfg, s) && s.history.grounded && |s.history.submitted| <= n && s.graph.nodes != map[]
  }

  ghost predicate CanStrand(cfg: Config, n: nat) {
    exists steps: seq<Step> :: StrandsAt(cfg, n, steps)
  }

  lemma StrandedIsLive(cfg: Config, s: State, k: nat)
    requires Inv(cfg, s) && Stranded(s, k)
    ensures s.graph.nodes != map[] && !s.paused && s.history.grounded && |s.history.submitted| == k
  {
    hide Refines, Partition, NoneLost, Ledger;
    var id :| id in s.heap;
    assert Stages(s, id) > 0;
    assert Stages(s, id) == if id in Entry(s.graph) then 1 else 0;
  }

  function Plain(k: nat): (nodes: seq<WorkNode>)
    ensures |nodes| == k && Distinct(nodes)
  {
    seq(k, i requires 0 <= i => WorkNode(i, 0, Groq))
  }

  /** One node more than the launchpad has slots is enough. */
  lemma Strands(cfg: Config)
    requires cfg.pushCap > 0 && cfg.launchCap > 0 && (cfg.maxGraphSize == 0 || cfg.maxGraphSize > cfg.launchCap)
    ensures CanStrand(cfg, cfg.launchCap + 1)
  {
    hide Inv, Exec, Stranded, Quiescent, Resumed, Plain;
    var k := cfg.launchCap + 1;
    var start := Resumed(Plain(k));
    QueuedTooMany(cfg, Plain(k), []);
    var more := RunToRest(cfg, start);
    QueuedTooMany(cfg, Plain(k), more);
    StrandedIsLive(cfg, Exec(cfg, start + more).value, k);
    assert StrandsAt(cfg, k, start + more);
  }

  lemma MoreCanStrand(cfg: Config, k: nat, n: nat)
    requires CanStrand(cfg, k) && k <= n
    ensures CanStrand(cfg, n)
  {
    hide Inv, Exec, Quiescent;
    var steps :| StrandsAt(cfg, k, steps);
    assert StrandsAt(cfg, n, steps);
  }

  /** With slots for all, no run strands anybody. */
  lemma NobodyStrands(cfg: Config, n: nat, steps: seq<Step>)
    requires cfg.launchCap > 0 && cfg.poolCap > 0 && cfg.workerCount > 0
    requires n <= cfg.launchCap || 0 < cfg.maxGraphSize <= cfg.launchCap
    ensures !StrandsAt(cfg, n, steps)
  {
    hide Inv, Exec, Quiescent;
    if StrandsAt(cfg, n, steps) {
      assert Served(cfg, Exec(cfg, steps).value);
      NothingLeftBehind(cfg, steps);
    }
  }

  /**
   "Will be processed eventually" fails, and here is exactly when. Over all runs, with any dependencies, pauses, resumes
   and interleavings, of at most `n` nodes: the scheduler can come to rest unpaused with a live node if and only if there
   are more nodes than the launchpad has slots (one per worker) and the graph may hold more nodes than that.
   */
  lemma ResumeStrands(cfg: Config, n: nat)
    requires cfg.pushCap > 0 && cfg.launchCap > 0 && cfg.poolCap > 0 && cfg.workerCount > 0
    ensures CanStrand(cfg, n) <==> n > cfg.launchCap && (cfg.maxGraphSize == 0 || cfg.maxGraphSize > cfg.launchCap)
  {
    hide StrandsAt;
    if n > cfg.launchCap && (cfg.maxGraphSize == 0 || cfg.maxGraphSize > cfg.launchCap) {
      Strands(cfg);
      MoreCanStrand(cfg, cfg.launchCap + 1, n);
    } else {
      forall steps: seq<Step>
        ensures !StrandsAt(cfg, n, steps)
      {
        NobodyStrands(cfg, n, steps);
      }
    }
  }
}
