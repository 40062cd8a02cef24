/** The worker pool's books (`worker_pool.go`) and the capacity-1 result channels (`work_node.go`). */
module RunnerWorkers {
  import opened Nodes
  import opened GraphModel
  import opened Waiting
  import opened Runner
  import opened RunnerSafety
  import opened RunnerLedger
  import opened RunnerBooks

  function Marked(w: Worker): nat {
    if w.WIdle? || w.WGot? then 0 else 1
  }

  /** The two maps list exactly the marked workers, the second with what they hold. */
  ghost predicate WorkersMapped(s: State) {
    && (forall i: nat :: i in s.books.workerNode <==> i < |s.workers| && Marked(s.workers[i]) == 1)
    && (forall i: nat :: i in s.books.workerState && s.books.workerState[i] <==> i < |s.workers| && Marked(s.workers[i]) == 1)
    && (forall i | 0 <= i < |s.workers| && Marked(s.workers[i]) == 1 && (exists id :: Holds(s.workers[i], id)) ::
          s.books.workerNode[i] == s.workers[i].id)
  }

  /** `busyWorkers`, `workerState` and `workerNodeMap` agree with each other and with the workers. */
  ghost predicate WorkersCounted(cfg: Config, s: State) {
    && |s.workers| == cfg.workerCount
    && s.books.busyWorkers == SumOf(s.workers, Marked) == |s.books.workerNode.Keys|
    && WorkersMapped(s)
  }

  /** The counter stays within the size of the pool. */
  lemma {:induction false} BusyWithin(ws: seq<Worker>)
    ensures SumOf(ws, Marked) <= |ws|
  {
    if ws != [] {
      BusyWithin(ws[..|ws| - 1]);
    }
  }

  /** A worker that keeps its mark keeps the books. */
  lemma SameMark(cfg: Config, s: State, s': State, i: nat, w: Worker)
    requires WorkersCounted(cfg, s) && i < |s.workers| && s'.workers == s.workers[i := w]
    requires Marked(w) == Marked(s.workers[i])
    requires forall id :: Holds(w, id) && Marked(w) == 1 ==> Holds(s.workers[i], id)
    requires s'.books == s.books
    ensures WorkersCounted(cfg, s')
  {
    SumOfUpdate(s.workers, i, w, Marked);
    forall k | 0 <= k < |s'.workers| && Marked(s'.workers[k]) == 1 && (exists id :: Holds(s'.workers[k], id))
      ensures s'.books.workerNode[k] == s'.workers[k].id
    {
      if k == i {
        var id :| Holds(w, id);
        assert Holds(s.workers[i], id);
      }
    }
  }

  lemma MarkBusyCounted(cfg: Config, s: State, i: nat)
    requires WorkersCounted(cfg, s) && i < |s.workers| && s.workers[i].WGot?
    ensures var id := s.workers[i].id;
            WorkersCounted(cfg, MarkBusy(s.(workers := s.workers[i := WBusy(id)]), i, id))
  {
    MarkBusyMapped(s, i);
    assert i !in s.books.workerNode;
    hide WorkersMapped;
    OneMore(s.workers, s.books.workerNode, i, s.workers[i].id);
  }

  lemma OneMore(ws: seq<Worker>, holds: map<nat, NodeId>, i: nat, id: NodeId)
    requires i < |ws| && ws[i].WGot? && i !in holds && SumOf(ws, Marked) == |holds.Keys|
    ensures SumOf(ws[i := WBusy(id)], Marked) == SumOf(ws, Marked) + 1 == |holds[i := id].Keys|
  {
    SumOfUpdate(ws, i, WBusy(id), Marked);
    assert holds[i := id].Keys == holds.Keys + {i};
  }

  lemma MarkBusyMapped(s: State, i: nat)
    requires WorkersMapped(s) && i < |s.workers| && s.workers[i].WGot?
    ensures var id := s.workers[i].id;
            WorkersMapped(MarkBusy(s.(workers := s.workers[i := WBusy(id)]), i, id))
  {
  }

  lemma MarkIdleCounted(cfg: Config, s: State, i: nat)
    requires WorkersCounted(cfg, s) && i < |s.workers| && s.workers[i].WFinishing?
    ensures WorkersCounted(cfg, MarkIdle(s.(workers := s.workers[i := WIdle]), i))
  {
    SumOfUpdate(s.workers, i, WIdle, Marked);
    assert (s.books.workerNode - {i}).Keys == s.books.workerNode.Keys - {i};
  }

  lemma WorkersAfterBegin(cfg: Config, s: State, step: Step)
    requires WorkersCounted(cfg, s) && CanWork(cfg, s, step) && IsBegin(step)
    ensures WorkersCounted(cfg, Begin(cfg, s, step))
  {
    hide WorkersCounted;
    if step.WorkMark? {
      MarkBusyCounted(cfg, s, step.i);
    } else {
      var s' := Begin(cfg, s, step);
      SameMark(cfg, s, s', step.i, s'.workers[step.i]);
    }
  }

  lemma WorkersAfterEnd(cfg: Config, s: State, step: Step)
    requires WorkersCounted(cfg, s) && CanWork(cfg, s, step) && IsEnd(step)
    ensures WorkersCounted(cfg, End(cfg, s, step))
  {
    hide WorkersCounted;
    if step.WorkFinish? {
      MarkIdleCounted(cfg, s, step.i);
    } else {
      var s' := End(cfg, s, step);
      SameMark(cfg, s, s', step.i, s'.workers[step.i]);
    }
  }

  lemma WorkersAfterSettle(cfg: Config, s: State, i: nat, s': State, gone: set<NodeId>)
    requires WorkersCounted(cfg, s) && i < |s.workers| && s.workers[i].WCounted? && Settled(cfg, s, i, s', gone)
    ensures WorkersCounted(cfg, s')
  {
    hide WorkersCounted, Discharged;
    SameMark(cfg, s, s', i, WCancelling(|gone| - 1));
  }

  lemma WorkersKept(cfg: Config, s: State, step: Step)
    requires Sound(s) && Staged(s) && WorkersCounted(cfg, s) && Enabled(cfg, s, step)
    ensures WorkersCounted(cfg, Next(cfg, s, step))
  {
    hide Staged, Refines, Settled, WorkersCounted, FreshRequests, NoNil, Begin, End, Callback, Push, Listen, Launch, Control;
    if IsBegin(step) {
      WorkersAfterBegin(cfg, s, step);
    } else if IsEnd(step) {
      WorkersAfterEnd(cfg, s, step);
    } else if step.WorkRemove? {
      var gone := SettleFacts(cfg, s, step.i);
      WorkersAfterSettle(cfg, s, step.i, Callback(cfg, s, step.i), gone);
    } else {
      BooksUntouched(cfg, s, step);
      WorkersFrame(cfg, s, Next(cfg, s, step));
    }
  }

  lemma WorkersFrame(cfg: Config, s: State, s': State)
    requires WorkersCounted(cfg, s) && SameBooks(s, s')
    ensures WorkersCounted(cfg, s')
  {
  }

  // ---------------------------------------------------------------- results

  predicate Emitted(w: Worker, id: NodeId) {
    (w.WEmitted? || w.WCounted?) && w.id == id
  }

  function EmittedBy(ws: seq<Worker>, id: NodeId): nat {
    if ws == [] then 0 else EmittedBy(ws[..|ws| - 1], id) + if Emitted(ws[|ws| - 1], id) then 1 else 0
  }

  lemma {:induction false} EmittedUpdate(ws: seq<Worker>, i: nat, w: Worker, id: NodeId)
    requires i < |ws|
    ensures EmittedBy(ws[i := w], id) + (if Emitted(ws[i], id) then 1 else 0)
            == EmittedBy(ws, id) + if Emitted(w, id) then 1 else 0
  {
    var n := |ws| - 1;
    if i < n {
      EmittedUpdate(ws[..n], i, w, id);
      assert ws[i := w][..n] == ws[..n][i := w];
    } else {
      assert ws[i := w][..n] == ws[..n];
    }
  }

  lemma {:induction false} EmittedBelow(ws: seq<Worker>, id: NodeId)
    ensures EmittedBy(ws, id) <= InWorkers(ws, id)
    ensures forall i :: 0 <= i < |ws| && Holds(ws[i], id) && !Emitted(ws[i], id) ==> EmittedBy(ws, id) < InWorkers(ws, id)
  {
    if ws != [] {
      EmittedBelow(ws[..|ws| - 1], id);
    }
  }

  /** A result was sent for exactly the nodes that ran to their end. */
  ghost predicate ResultsSent(s: State) {
    forall id :: s.results[id] == (if id in s.history.done + s.history.bad then 1 else 0) + EmittedBy(s.workers, id)
  }

  lemma OneResult(s: State, id: NodeId)
    requires Staged(s) && Partition(s) && ResultsSent(s)
    ensures s.results[id] <= 1
    ensures forall i :: 0 <= i < |s.workers| && s.workers[i] == WBusy(id) ==> s.results[id] == 0
  {
    EmittedBelow(s.workers, id);
    assert Stages(s, id) == if id in Entry(s.graph) then 1 else 0;
    assert id in s.history.done + s.history.bad ==> id !in s.graph.nodes.Keys;
    assert s.results[id] == (if id in s.history.done + s.history.bad then 1 else 0) + EmittedBy(s.workers, id);
    hide Staged, Partition, ResultsSent, EmittedBy, InWorkers;
    forall i | 0 <= i < |s.workers| && s.workers[i] == WBusy(id)
      ensures s.results[id] == 0
    {
      assert Holds(s.workers[i], id) && !Emitted(s.workers[i], id);
      HeldIsEntry(s, i, id);
    }
  }

  /** No node sends two results, and a worker that is about to send one never finds the channel full. */
  lemma NeverBlocksOnResult(cfg: Config, s: State)
    requires Sound(s) && Staged(s) && Partition(s) && ResultsSent(s)
    ensures forall id :: s.results[id] <= 1
    ensures forall i: nat :: i < |s.workers| && s.workers[i].WBusy? ==> CanWork(cfg, s, WorkEmit(i))
  {
    hide Sound, Staged, Partition, ResultsSent;
    forall id
      ensures s.results[id] <= 1
      ensures forall i :: 0 <= i < |s.workers| && s.workers[i] == WBusy(id) ==> s.results[id] == 0
    {
      OneResult(s, id);
    }
  }

  lemma ResultsAfterMove(s: State, s': State, i: nat, w: Worker)
    requires ResultsSent(s) && i < |s.workers| && s'.workers == s.workers[i := w]
    requires s'.history.done == s.history.done && s'.history.bad == s.history.bad
    requires forall id :: s'.results[id] + (if Emitted(s.workers[i], id) then 1 else 0)
                          == s.results[id] + if Emitted(w, id) then 1 else 0
    ensures ResultsSent(s')
  {
    forall id
      ensures s'.results[id] == (if id in s'.history.done + s'.history.bad then 1 else 0) + EmittedBy(s'.workers, id)
    {
      EmittedUpdate(s.workers, i, w, id);
    }
  }

  /** The settled node's result stays on its channel; the cancelled nodes never sent one. */
  lemma ResultsAfterSettle(cfg: Config, s: State, i: nat, s': State, gone: set<NodeId>)
    requires ResultsSent(s) && Partition(s) && i < |s.workers| && s.workers[i].WCounted? && Settled(cfg, s, i, s', gone)
    ensures ResultsSent(s')
  {
    hide ResultsSent, Discharged;
    var id := s.workers[i].id;
    assert id in s.graph.nodes.Keys && id !in s.history.done + s.history.bad;
    assert s'.history.done + s'.history.bad == s.history.done + s.history.bad + {id};
    hide Partition, Settled;
    OneEnds(s, s', i, WCancelling(|gone| - 1), id);
  }

  lemma OneEnds(s: State, s': State, i: nat, w: Worker, id: NodeId)
    requires ResultsSent(s) && s'.results == s.results && i < |s.workers| && s.workers[i] == WCounted(id)
    requires s'.workers == s.workers[i := w] && w.WCancelling? && id !in s.history.done + s.history.bad
    requires s'.history.done + s'.history.bad == s.history.done + s.history.bad + {id}
    ensures ResultsSent(s')
  {
    forall x
      ensures s'.results[x] == (if x in s'.history.done + s'.history.bad then 1 else 0) + EmittedBy(s'.workers, x)
    {
      EmittedUpdate(s.workers, i, w, x);
      assert s.results[x] == (if x in s.history.done + s.history.bad then 1 else 0) + EmittedBy(s.workers, x);
      assert Emitted(s.workers[i], x) <==> x == id;
    }
  }

  lemma ResultsAfterBegin(cfg: Config, s: State, step: Step)
    requires ResultsSent(s) && CanWork(cfg, s, step) && IsBegin(step)
    ensures ResultsSent(Begin(cfg, s, step))
  {
    hide ResultsSent;
    var s' := Begin(cfg, s, step);
    ResultsAfterMove(s, s', step.i, s'.workers[step.i]);
  }

  lemma ResultsAfterEnd(cfg: Config, s: State, step: Step)
    requires ResultsSent(s) && CanWork(cfg, s, step) && IsEnd(step)
    ensures ResultsSent(End(cfg, s, step))
  {
    hide ResultsSent;
    var s' := End(cfg, s, step);
    ResultsAfterMove(s, s', step.i, s'.workers[step.i]);
  }

  lemma ResultsKept(cfg: Config, s: State, step: Step)
    requires Sound(s) && Staged(s) && Partition(s) && ResultsSent(s) && Enabled(cfg, s, step)
    ensures ResultsSent(Next(cfg, s, step))
  {
    hide Staged, Refines, Partition, ResultsSent, FreshRequests, NoNil, Settled, Begin, End, Callback, Push, Listen, Launch,
         Control, Added;
    if IsBegin(step) {
      ResultsAfterBegin(cfg, s, step);
    } else if IsEnd(step) {
      ResultsAfterEnd(cfg, s, step);
    } else if step.WorkRemove? {
      var gone := SettleFacts(cfg, s, step.i);
      ResultsAfterSettle(cfg, s, step.i, Callback(cfg, s, step.i), gone);
    } else if step.PushAdd? {
      AddFacts(cfg, s);
      ResultsAfterAdd(s, Push(cfg, s, step));
    } else {
      NodesUntouched(cfg, s, step);
      BooksUntouched(cfg, s, step);
      ResultsFrame(s, Next(cfg, s, step));
    }
  }

  lemma ResultsAfterAdd(s: State, s': State)
    requires ResultsSent(s) && s.pusher.PAdding? && Added(s, s')
    ensures ResultsSent(s')
  {
  }

  lemma ResultsFrame(s: State, s': State)
    requires ResultsSent(s) && s'.workers == s.workers && s'.results == s.results
    requires s'.history.done == s.history.done && s'.history.bad == s.history.bad
    ensures ResultsSent(s')
  {
  }
}
