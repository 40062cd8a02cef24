/**
 The fields that `turbo_run/runner_lifecycle.go` and `turbo_run/worker_pool.go` update under their locks, as one object
 over the graph and the priority queue. Each method does what one actor of the step system does in one or more steps, and
 is proved to lead to the state those steps lead to.
 */
module Lifecycle {
  import opened Nodes
  import opened GraphModel
  import opened Waiting
  import opened Runner
  import opened RunnerChannels
  import DependencyGraph
  import Subtree
  import opened PriorityQueues
  import Heap

  /** The queue holds the ids of the model's heap, with the priorities they were queued with. */
  ghost predicate QueueMatches(entries: multiset<(NodeId, int)>, s: State) {
    && (forall e <- entries :: e.1 == Priority(s, e.0))
    && (forall id :: s.heap[id] == entries[(id, Priority(s, id))])
  }

  lemma OneLess(entries: multiset<(NodeId, int)>, s: State, e: (NodeId, int))
    requires QueueMatches(entries, s) && e in entries
    ensures e.0 in s.heap && QueueMatches(entries - multiset{e}, s.(heap := s.heap - multiset{e.0}))
  {
    var s' := s.(heap := s.heap - multiset{e.0});
    assert forall x :: Priority(s', x) == Priority(s, x);
    hide Priority;
    assert e.1 == Priority(s, e.0);
  }

  lemma {:induction false} SameSize(entries: multiset<(NodeId, int)>, s: State)
    requires QueueMatches(entries, s)
    ensures |s.heap| == |entries|
    decreases |entries|
  {
    if e :| e in entries {
      OneLess(entries, s, e);
      hide QueueMatches;
      SameSize(entries - multiset{e}, s.(heap := s.heap - multiset{e.0}));
    } else {
      assert forall id :: s.heap[id] == 0;
      assert s.heap == multiset{};
    }
  }

  /** One callback from its first line to its notification, with nothing in between. */
  ghost function Called(cfg: Config, s: State, i: nat): State
    requires CanWork(cfg, s, WorkCount(i)) && Refines(s.graph, s.waits)
  {
    Notified(cfg, Callback(cfg, Begin(cfg, s, WorkCount(i)), i), i)
  }

  /** From the graph update on: one count for each cancelled descendant, then the token. */
  function Notified(cfg: Config, s: State, i: nat): State
    requires i < |s.workers| && s.workers[i].WCancelling?
    decreases s.workers[i].left
  {
    var s' := End(cfg, s, WorkCancel(i));
    if s.workers[i].left == 0 then End(cfg, s', WorkNotify(i)) else Notified(cfg, s', i)
  }

  lemma {:induction false} NotifiedCounts(cfg: Config, s: State, i: nat)
    requires i < |s.workers| && s.workers[i].WCancelling?
    ensures Notified(cfg, s, i)
            == s.(failed := s.failed + s.workers[i].left, notify := true, workers := s.workers[i := WFinishing])
    decreases s.workers[i].left
  {
    var s' := End(cfg, s, WorkCancel(i));
    if s.workers[i].left > 0 {
      NotifiedCounts(cfg, s', i);
    }
    assert s'.workers[i := WFinishing] == s.workers[i := WFinishing];
  }

  lemma StartOwes(cfg: Config, s: State)
    ensures s.paused ==> Control(cfg, s, Runner.Start).owed == s.owed + |s.heap|
  {
  }

  lemma OneOffered(cfg: Config, t: State, n: nat)
    requires 0 < n <= t.owed
    ensures var t' := Control(cfg, t, StartSignal);
            t'.owed == t.owed - 1 && Resend(cfg, t, n) == Resend(cfg, t', n - 1)
  {
  }

  class TurboRun {
    const graph: DependencyGraph.Graph
    const priorityQueue: PriorityQueue<NodeId>
    const launchpadSize: nat
    const propagate: bool
    var paused: bool
    var launchpad: nat
    var graphSpaceNotify: bool
    var completedCount: nat
    var failedCount: nat
    // the worker pool
    var workerState: map<nat, bool>
    var workerNodeMap: map<nat, NodeId>
    var busyWorkers: int

    /** Everything but the queue. */
    ghost predicate Matches(cfg: Config, s: State)
      reads this, graph
    {
      && graph.State() == s.graph && graph.waits == s.waits
      && launchpadSize == cfg.launchCap && propagate == cfg.propagate
      && paused == s.paused && launchpad == s.launchpad && graphSpaceNotify == s.notify
      && completedCount == s.completed && failedCount == s.failed
      && PoolBooks(busyWorkers, workerState, workerNodeMap) == s.books
    }

    constructor (graph: DependencyGraph.Graph, priorityQueue: PriorityQueue<NodeId>, launchpadSize: nat, propagate: bool)
      ensures this.graph == graph && this.priorityQueue == priorityQueue
      ensures this.launchpadSize == launchpadSize && this.propagate == propagate
      ensures paused && launchpad == 0 && !graphSpaceNotify && completedCount == 0 == failedCount
      ensures workerState == map[] && workerNodeMap == map[] && busyWorkers == 0
    {
      this.graph, this.priorityQueue, this.launchpadSize, this.propagate := graph, priorityQueue, launchpadSize, propagate;
      paused, launchpad, graphSpaceNotify, completedCount, failedCount := true, 0, false, 0, 0;
      workerState, workerNodeMap, busyWorkers := map[], map[], 0;
    }

    /** Resumes, and offers one signal per queued node; those that do not fit are dropped. */
    method Start(ghost cfg: Config, ghost s: State)
      requires Matches(cfg, s) && QueueMatches(priorityQueue.Contents(), s)
      modifies this
      ensures !paused && (!old(paused) ==> launchpad == old(launchpad))
      ensures Matches(cfg, if s.paused then Resend(cfg, Control(cfg, s, Runner.Start), |s.heap|) else s)
    {
      assert paused == s.paused;
      hide Matches, QueueMatches, Control, Resend;
      SameSize(priorityQueue.Contents(), s);
      StartOwes(cfg, s);
      var wasPaused := Unpause(cfg, s);
      var queueSize := priorityQueue.Size();
      if wasPaused {
        OfferSignals(queueSize, cfg, Control(cfg, s, Runner.Start));
      }
    }

    method OfferSignals(queueSize: nat, ghost cfg: Config, ghost resumed: State)
      requires Matches(cfg, resumed) && queueSize <= resumed.owed
      modifies this`launchpad
      ensures Matches(cfg, Resend(cfg, resumed, queueSize))
    {
      hide Matches, Control;
      ghost var t := resumed;
      for i := 0 to queueSize
        invariant t.owed == resumed.owed - i && Matches(cfg, t)
        invariant Resend(cfg, t, queueSize - i) == Resend(cfg, resumed, queueSize)
      {
        OfferSignal(cfg, t);
        OneOffered(cfg, t, queueSize - i);
        t := Control(cfg, t, StartSignal);
      }
    }

    method Unpause(ghost cfg: Config, ghost s: State) returns (wasPaused: bool)
      requires Matches(cfg, s)
      modifies this`paused
      ensures wasPaused == s.paused && !paused && Matches(cfg, if s.paused then Control(cfg, s, Runner.Start) else s)
    {
      wasPaused := paused;
      paused := false;
    }

    /** The non-blocking send of the resend loop. */
    method OfferSignal(ghost cfg: Config, ghost t: State)
      requires Matches(cfg, t) && t.owed > 0
      modifies this`launchpad
      ensures Matches(cfg, Control(cfg, t, StartSignal))
    {
      if launchpad < launchpadSize {
        launchpad := launchpad + 1;
      }
    }

    method Pause(ghost cfg: Config, ghost s: State)
      requires Matches(cfg, s)
      modifies this
      ensures paused && Matches(cfg, Control(cfg, s, Runner.Pause))
    {
      paused := true;
    }

    /** What the ready listener does with a node in its hand: its estimated tokens are its priority. */
    method QueueReady(node: WorkNode, ghost cfg: Config, ghost s: State)
      requires priorityQueue.Valid() && QueueMatches(priorityQueue.Contents(), s)
      requires s.listener == LGot(node.id, node.tokens) && node.id !in s.heap
      modifies priorityQueue.queue
      ensures priorityQueue.Valid() && QueueMatches(priorityQueue.Contents(), Listen(cfg, s, ListenQueue))
      ensures priorityQueue.Contents() == old(priorityQueue.Contents()) + multiset{(node.id, node.tokens)}
    {
      var size := priorityQueue.Push(Heap.QueueItem(node.id, node.tokens, 0));
      QueueGains(old(priorityQueue.Contents()), s, node.id, node.tokens);
    }

    /** What the launch controller does with a signal: the node popped is one the step system lets it pop. */
    method PopNext(ghost cfg: Config, ghost s: State) returns (next: Option<NodeId>)
      requires priorityQueue.Valid() && priorityQueue.queue.max
      requires QueueMatches(priorityQueue.Contents(), s) && s.launcher.CAwake?
      modifies priorityQueue.queue
      ensures priorityQueue.Valid()
      ensures next == None ==> CanLaunch(cfg, s, LaunchEmpty) && QueueMatches(priorityQueue.Contents(), Launch(cfg, s, LaunchEmpty))
      ensures next.Some? ==>
                && CanLaunch(cfg, s, LaunchPop(next.value))
                && QueueMatches(priorityQueue.Contents(), Launch(cfg, s, LaunchPop(next.value)))
                && next.value in s.heap && forall x <- s.heap :: Priority(s, x) <= Priority(s, next.value)
    {
      var size := priorityQueue.Size();
      SameSize(priorityQueue.Contents(), s);
      if size == 0 {
        return None;
      }
      ghost var entries := priorityQueue.Contents();
      assert priorityQueue.queue.items != [];
      var id, left, priority := priorityQueue.Pop();
      QueueLoses(entries, s, id, priority);
      next := Some(id);
    }

    /** The completion callback of the node on worker `i`. */
    method OnResult(i: nat, id: NodeId, failed: bool, ghost cfg: Config, ghost s: State)
      requires Matches(cfg, s) && Refines(s.graph, s.waits)
      requires i < |s.workers| && s.workers[i] == WEmitted(id) && failed == (id in cfg.fails)
      modifies this, graph
      ensures Matches(cfg, Called(cfg, s, i))
    {
      hide Matches, Refines, Begin, Callback, Notified;
      ghost var t := Begin(cfg, s, WorkCount(i));
      CountResult(i, id, failed, cfg, s);
      if failed && propagate {
        CancelDescendants(id, cfg, t, i);
      } else {
        RemoveAlone(id, cfg, t, i);
      }
      NotifySpace(cfg, Callback(cfg, t, i), i);
    }

    /** The non-blocking send on the channel of capacity one. */
    method NotifySpace(ghost cfg: Config, ghost t: State, ghost i: nat)
      requires i < |t.workers| && t.workers[i].WCancelling? && Matches(cfg, t.(failed := t.failed + t.workers[i].left))
      modifies this`graphSpaceNotify
      ensures Matches(cfg, Notified(cfg, t, i))
    {
      NotifiedCounts(cfg, t, i);
      hide Notified;
      graphSpaceNotify := true;
    }

    method CountResult(i: nat, id: NodeId, failed: bool, ghost cfg: Config, ghost s: State)
      requires Matches(cfg, s) && i < |s.workers| && s.workers[i] == WEmitted(id) && failed == (id in cfg.fails)
      modifies this`failedCount, this`completedCount
      ensures var t := Begin(cfg, s, WorkCount(i));
              Matches(cfg, t) && t.workers[i] == WCounted(id) && t.graph == s.graph && t.waits == s.waits && |t.workers| == |s.workers|
      ensures propagate == cfg.propagate
    {
      if failed {
        failedCount := failedCount + 1;
      } else {
        completedCount := completedCount + 1;
      }
    }

    method RemoveAlone(id: NodeId, ghost cfg: Config, ghost t: State, ghost i: nat)
      requires Matches(cfg, t) && Refines(t.graph, t.waits)
      requires i < |t.workers| && t.workers[i] == WCounted(id) && (id !in cfg.fails || !propagate)
      modifies graph
      ensures var t' := Callback(cfg, t, i);
              |t'.workers| > i && t'.workers[i].WCancelling? && Matches(cfg, t'.(failed := t'.failed + t'.workers[i].left))
    {
      hide Refines, RemoveNode, RemoveWaits;
      graph.Remove(id);
    }

    /** Removes the failed node with all its descendants, and counts each of those. */
    method CancelDescendants(id: NodeId, ghost cfg: Config, ghost t: State, ghost i: nat)
      requires Matches(cfg, t) && Refines(t.graph, t.waits)
      requires i < |t.workers| && t.workers[i] == WCounted(id) && id in cfg.fails && propagate
      modifies this`failedCount, graph
      ensures var t' := Callback(cfg, t, i);
              |t'.workers| > i && t'.workers[i].WCancelling? && Matches(cfg, t'.(failed := t'.failed + t'.workers[i].left))
    {
      hide Refines, Subtree.SubtreeRemoved, RemoveSubtree, CancelWaits, Members;
      RefinesRanked(t.graph, t.waits);
      var removedIDs := graph.RemoveSubtree(id);
      CountOthers(t.graph, id, graph.State(), removedIDs);
      CountCancelled(id, removedIDs);
    }

    method CountCancelled(id: NodeId, removedIDs: seq<NodeId>)
      modifies this`failedCount
      ensures failedCount == old(failedCount) + Others(removedIDs, id)
    {
      var n := 0;
      while n < |removedIDs|
        invariant n <= |removedIDs| && failedCount == old(failedCount) + Others(removedIDs[..n], id)
      {
        assert removedIDs[..n + 1][..n] == removedIDs[..n];
        if removedIDs[n] != id {
          failedCount := failedCount + 1;
        }
        n := n + 1;
      }
      assert removedIDs[..n] == removedIDs;
    }

    /** `changeBusyState` of the worker pool. */
    method ChangeBusyState(workerID: nat, busy: bool, node: NodeId, ghost cfg: Config, ghost s: State)
      requires Matches(cfg, s)
      modifies this`workerState, this`workerNodeMap, this`busyWorkers
      ensures Matches(cfg, if busy then MarkBusy(s, workerID, node) else MarkIdle(s, workerID))
    {
      workerState := workerState[workerID := busy];
      if busy {
        busyWorkers := busyWorkers + 1;
        workerNodeMap := workerNodeMap[workerID := node];
      } else {
        busyWorkers := busyWorkers - 1;
        workerNodeMap := workerNodeMap - {workerID};
      }
    }
  }

  lemma QueueGains(entries: multiset<(NodeId, int)>, s: State, id: NodeId, tokens: nat)
    requires QueueMatches(entries, s) && id !in s.heap
    ensures QueueMatches(entries + multiset{(id, tokens)},
                         s.(heap := s.heap + multiset{id}, priority := s.priority[id := tokens], listener := LOwes))
  {
    var s' := s.(heap := s.heap + multiset{id}, priority := s.priority[id := tokens], listener := LOwes);
    forall e <- entries
      ensures e.0 != id && e.1 == Priority(s', e.0)
    {
      assert s.heap[e.0] == entries[(e.0, Priority(s, e.0))] > 0;
    }
    forall x
      ensures s'.heap[x] == (entries + multiset{(id, tokens)})[(x, Priority(s', x))]
    {
      assert s.heap[x] == entries[(x, Priority(s, x))];
    }
  }

  lemma QueueLoses(entries: multiset<(NodeId, int)>, s: State, id: NodeId, priority: int)
    requires QueueMatches(entries, s) && (id, priority) in entries && Heap.First(true, entries, priority)
    ensures id in s.heap && forall x <- s.heap :: Priority(s, x) <= Priority(s, id)
    ensures QueueMatches(entries - multiset{(id, priority)}, s.(heap := s.heap - multiset{id}, launcher := CBudget(id)))
  {
    OneLess(entries, s, (id, priority));
    forall x <- s.heap
      ensures Priority(s, x) <= Priority(s, id)
    {
      assert (x, Priority(s, x)) in entries;
    }
  }

  /** How many ids of the list are not `id`. */
  function Others(ids: seq<NodeId>, id: NodeId): nat {
    if ids == [] then 0 else Others(ids[..|ids| - 1], id) + if ids[|ids| - 1] != id then 1 else 0
  }

  lemma OneMoreOther(front: seq<NodeId>, last: NodeId, id: NodeId)
    requires last !in front
    ensures |Members(front + [last]) - {id}| == |Members(front) - {id}| + if last != id then 1 else 0
  {
    assert Members(front + [last]) - {id} == (Members(front) - {id}) + if last != id then {last} else {};
  }

  lemma {:induction false} OthersCounts(ids: seq<NodeId>, id: NodeId)
    requires forall i, j | 0 <= i < j < |ids| :: ids[i] != ids[j]
    ensures Others(ids, id) == |Members(ids) - {id}|
  {
    if ids != [] {
      var front, last := ids[..|ids| - 1], ids[|ids| - 1];
      OthersCounts(front, id);
      assert ids == front + [last] && last !in front;
      hide Members;
      OneMoreOther(front, last, id);
    } else {
      assert Members(ids) - {id} == {};
    }
  }

  lemma CountOthers(g: Graph, id: NodeId, g': Graph, removed: seq<NodeId>)
    requires Subtree.SubtreeRemoved(g, id, g', removed)
    ensures Others(removed, id) == |Members(removed) - {id}|
  {
    OthersCounts(removed, id);
  }
}
