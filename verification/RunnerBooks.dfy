/** Conservation: every node added is live, completed, failed or about to be counted; every worker and result is accounted for. */
module RunnerBooks {
  import opened Nodes
  import opened GraphModel
  import opened Waiting
  import opened Runner
  import opened RunnerSafety
  import opened RunnerLedger

  function SumOf(ws: seq<Worker>, f: Worker -> nat): nat {
    if ws == [] then 0 else SumOf(ws[..|ws| - 1], f) + f(ws[|ws| - 1])
  }

  lemma {:induction false} SumOfUpdate(ws: seq<Worker>, i: nat, w: Worker, f: Worker -> nat)
    requires i < |ws|
    ensures SumOf(ws[i := w], f) + f(ws[i]) == SumOf(ws, f) + f(w)
  {
    var n := |ws| - 1;
    if i < n {
      SumOfUpdate(ws[..n], i, w, f);
      assert ws[i := w][..n] == ws[..n][i := w];
    } else {
      assert ws[i := w][..n] == ws[..n];
    }
  }

  lemma {:induction false} SumOfZero(ws: seq<Worker>, f: Worker -> nat)
    requires forall w <- ws :: f(w) == 0
    ensures SumOf(ws, f) == 0
  {
    if ws != [] {
      SumOfZero(ws[..|ws| - 1], f);
    }
  }

  // ---------------------------------------------------------------- how nodes leave

  ghost predicate Parted(added: set<NodeId>, live: set<NodeId>, done: set<NodeId>, bad: set<NodeId>, cancelled: set<NodeId>) {
    && added == live + done + bad + cancelled
    && live !! done !! bad !! cancelled
  }

  /** Every node added is live or left in exactly one way. */
  ghost predicate Partition(s: State) {
    Parted(s.waits.order.rank.Keys, s.graph.nodes.Keys, s.history.done, s.history.bad, s.history.cancelled)
  }

  lemma PartitionAfterAdd(s: State, s': State)
    requires Partition(s) && s.pusher.PAdding? && Added(s, s')
    ensures Partition(s')
  {
    hide Joined;
    var id := s.pusher.req.node.id;
    assert s'.waits.order.rank.Keys == s.waits.order.rank.Keys + {id} by {
      RankGrows(s.waits, s'.waits, id, s.pusher.req.deps);
    }
  }

  lemma RankGrows(w: Waits, w': Waits, id: NodeId, deps: seq<NodeId>)
    requires Joined(w, w', id, deps)
    ensures w'.order.rank.Keys == w.order.rank.Keys + {id}
  {
  }

  lemma MoveToDone(added: set<NodeId>, live: set<NodeId>, done: set<NodeId>, bad: set<NodeId>, cancelled: set<NodeId>, id: NodeId)
    requires Parted(added, live, done, bad, cancelled) && id in live
    ensures Parted(added, live - {id}, done + {id}, bad, cancelled)
  {
  }

  lemma MoveToBad(added: set<NodeId>, live: set<NodeId>, done: set<NodeId>, bad: set<NodeId>, cancelled: set<NodeId>,
                  id: NodeId, gone: set<NodeId>)
    requires Parted(added, live, done, bad, cancelled) && id in gone && gone <= live
    ensures Parted(added, live - gone, done, bad + {id}, cancelled + (gone - {id}))
  {
  }

  lemma PartitionAfterSettle(cfg: Config, s: State, i: nat, s': State, gone: set<NodeId>)
    requires Partition(s) && i < |s.workers| && s.workers[i].WCounted? && Settled(cfg, s, i, s', gone)
    ensures Partition(s')
  {
    var id, h, live := s.workers[i].id, s.history, s.graph.nodes.Keys;
    assert s'.waits.order == s.waits.order;
    hide Discharged, Parted;
    if id in cfg.fails {
      MoveToBad(s.waits.order.rank.Keys, live, h.done, h.bad, h.cancelled, id, gone);
    } else {
      MoveToDone(s.waits.order.rank.Keys, live, h.done, h.bad, h.cancelled, id);
    }
  }

  lemma PartitionKept(cfg: Config, s: State, step: Step)
    requires Sound(s) && Staged(s) && Partition(s) && Enabled(cfg, s, step)
    ensures Partition(Next(cfg, s, step))
  {
    hide Staged, Push, Callback, Listen, Launch, Control, Settled, Added;
    if step.PushAdd? {
      AddFacts(cfg, s);
      PartitionAfterAdd(s, Push(cfg, s, step));
    } else if step.WorkRemove? {
      var gone := SettleFacts(cfg, s, step.i);
      PartitionAfterSettle(cfg, s, step.i, Callback(cfg, s, step.i), gone);
    } else {
      NodesUntouched(cfg, s, step);
    }
  }

  // ---------------------------------------------------------------- submitted nodes

  /** Every submitted node was added or is still with the push listener or in its channel. */
  ghost predicate NoneLost(s: State) {
    var rs := Requests(s);
    forall x <- s.history.submitted :: x in s.waits.order.rank || exists i :: 0 <= i < |rs| && rs[i].node.id == x
  }

  lemma NoneLostFrame(s: State, s': State)
    requires NoneLost(s) && Requests(s') == Requests(s)
    requires s'.history.submitted == s.history.submitted && s'.waits == s.waits
    ensures NoneLost(s')
  {
  }

  lemma NoneLostAfterAdd(s: State, s': State)
    requires NoneLost(s) && s.pusher.PAdding? && Added(s, s')
    ensures NoneLost(s')
  {
    var rs, rs' := Requests(s), Requests(s');
    assert rs == [s.pusher.req] + rs';
    forall x | x in s'.history.submitted && x !in s'.waits.order.rank
      ensures exists i :: 0 <= i < |rs'| && rs'[i].node.id == x
    {
      var i :| 0 <= i < |rs| && rs[i].node.id == x;
      assert rs'[i - 1] == rs[i];
    }
  }

  lemma NoneLostAfterSubmit(s: State, s': State, req: Request)
    requires NoneLost(s) && Requests(s') == Requests(s) + [req] && s'.waits == s.waits
    requires s'.history.submitted == s.history.submitted + {req.node.id}
    ensures NoneLost(s')
  {
    var rs, rs' := Requests(s), Requests(s');
    forall x | x in s'.history.submitted && x !in s'.waits.order.rank
      ensures exists i :: 0 <= i < |rs'| && rs'[i].node.id == x
    {
      if x in s.history.submitted {
        var i :| 0 <= i < |rs| && rs[i].node.id == x;
        assert rs'[i] == rs[i];
      } else {
        assert rs'[|rs|] == req;
      }
    }
  }

  lemma NoneLostAfterPush(cfg: Config, s: State, step: Step)
    requires Sound(s) && NoneLost(s) && CanPush(cfg, s, step)
    ensures NoneLost(Push(cfg, s, step))
  {
    hide NoneLost, Refines, FreshRequests, NoNil, Add, AddWaits;
    var s' := Push(cfg, s, step);
    if step.PushAdd? {
      AddFacts(cfg, s);
      NoneLostAfterAdd(s, s');
    } else if step.Submit? {
      assert Requests(s') == Requests(s) + [step.req];
      NoneLostAfterSubmit(s, s', step.req);
    } else {
      assert Requests(s') == Requests(s);
      NoneLostFrame(s, s');
    }
  }

  lemma NoneLostAfterSettle(cfg: Config, s: State, i: nat, s': State, gone: set<NodeId>)
    requires NoneLost(s) && i < |s.workers| && s.workers[i].WCounted? && Settled(cfg, s, i, s', gone)
    ensures NoneLost(s')
  {
    assert Requests(s') == Requests(s);
  }

  lemma NoneLostKept(cfg: Config, s: State, step: Step)
    requires Sound(s) && Staged(s) && NoneLost(s) && Enabled(cfg, s, step)
    ensures NoneLost(Next(cfg, s, step))
  {
    hide NoneLost, Staged, Refines, FreshRequests, NoNil, Settled, Push, Callback;
    if CanPush(cfg, s, step) {
      NoneLostAfterPush(cfg, s, step);
    } else if step.WorkRemove? {
      var gone := SettleFacts(cfg, s, step.i);
      NoneLostAfterSettle(cfg, s, step.i, Callback(cfg, s, step.i), gone);
    } else {
      NodesUntouched(cfg, s, step);
      RequestsUntouched(cfg, s, step);
      NoneLostFrame(s, Next(cfg, s, step));
    }
  }

  /** Only the push listener and the clients touch the requests. */
  lemma RequestsUntouched(cfg: Config, s: State, step: Step)
    requires Refines(s.graph, s.waits) && Enabled(cfg, s, step) && !CanPush(cfg, s, step) && !step.WorkRemove?
    ensures Requests(Next(cfg, s, step)) == Requests(s)
    ensures Next(cfg, s, step).history.submitted == s.history.submitted
  {
    hide Refines, Begin, End, Callback, Listen, Launch, Control, Push, Requests;
    if CanListen(cfg, s, step) {
      ListenKeepsRequests(cfg, s, step);
    } else if CanLaunch(cfg, s, step) {
      LaunchKeepsRequests(cfg, s, step);
    } else if IsBegin(step) {
      BeginKeepsRequests(cfg, s, step);
    } else if IsEnd(step) {
      EndKeepsRequests(cfg, s, step);
    } else {
      ControlKeepsRequests(cfg, s, step);
    }
  }

  lemma BeginKeepsRequests(cfg: Config, s: State, step: Step)
    requires CanWork(cfg, s, step) && IsBegin(step)
    ensures Requests(Begin(cfg, s, step)) == Requests(s) && Begin(cfg, s, step).history == s.history
  {
  }

  lemma EndKeepsRequests(cfg: Config, s: State, step: Step)
    requires CanWork(cfg, s, step) && IsEnd(step)
    ensures Requests(End(cfg, s, step)) == Requests(s) && End(cfg, s, step).history == s.history
  {
  }

  lemma LaunchKeepsRequests(cfg: Config, s: State, step: Step)
    requires CanLaunch(cfg, s, step)
    ensures Requests(Launch(cfg, s, step)) == Requests(s) && Launch(cfg, s, step).history == s.history
  {
  }

  lemma ListenKeepsRequests(cfg: Config, s: State, step: Step)
    requires CanListen(cfg, s, step)
    ensures Requests(Listen(cfg, s, step)) == Requests(s) && Listen(cfg, s, step).history == s.history
  {
  }

  lemma ControlKeepsRequests(cfg: Config, s: State, step: Step)
    requires CanControl(cfg, s, step)
    ensures Requests(Control(cfg, s, step)) == Requests(s)
    ensures Control(cfg, s, step).history.submitted == s.history.submitted
  {
  }

  // ---------------------------------------------------------------- completedCount and failedCount

  /** Whether the worker has raised the counter of completed (or of failed) nodes for a node still in the graph. */
  function Tallied(fails: set<NodeId>, failed: bool): Worker -> nat {
    (w: Worker) => if w.WCounted? && (w.id in fails) == failed then 1 else 0
  }

  function Left(w: Worker): nat {
    if w.WCancelling? then w.left else 0
  }

  /**
   Each counter by itself: completed nodes are those removed after success and those counted but not yet removed; failed
   nodes are those removed after their own failure, those cancelled, and those counted but not yet removed, less the
   cancelled ones that a callback has yet to count.
   */
  ghost predicate Ledger(cfg: Config, s: State) {
    && s.completed == |s.history.done| + SumOf(s.workers, Tallied(cfg.fails, false))
    && s.failed + SumOf(s.workers, Left)
       == |s.history.bad| + |s.history.cancelled| + SumOf(s.workers, Tallied(cfg.fails, true))
  }

  lemma LedgerAfterAdd(cfg: Config, s: State, s': State)
    requires Ledger(cfg, s) && s.pusher.PAdding? && Added(s, s')
    ensures Ledger(cfg, s')
  {
  }

  /** The settled nodes join the sets their counters stand for. */
  lemma SetsGrow(cfg: Config, s: State, i: nat, s': State, gone: set<NodeId>)
    requires Partition(s) && i < |s.workers| && s.workers[i].WCounted? && Settled(cfg, s, i, s', gone)
    ensures |s'.history.done| == |s.history.done| + if s.workers[i].id in cfg.fails then 0 else 1
    ensures |s'.history.bad| == |s.history.bad| + if s.workers[i].id in cfg.fails then 1 else 0
    ensures |s'.history.cancelled| == |s.history.cancelled| + |gone| - 1
  {
    var id, h := s.workers[i].id, s.history;
    hide Discharged;
    assert id !in h.done && id !in h.bad && gone !! h.cancelled;
    assert |h.done + {id}| == |h.done| + 1 && |h.bad + {id}| == |h.bad| + 1;
    assert |gone| == |gone - {id}| + 1 && |h.cancelled + (gone - {id})| == |h.cancelled| + |gone - {id}|;
  }

  lemma LedgerAfterSettle(cfg: Config, s: State, i: nat, s': State, gone: set<NodeId>)
    requires Ledger(cfg, s) && Partition(s)
    requires i < |s.workers| && s.workers[i].WCounted? && Settled(cfg, s, i, s', gone)
    ensures Ledger(cfg, s')
  {
    var w := WCancelling(|gone| - 1);
    SetsGrow(cfg, s, i, s', gone);
    assert s'.workers == s.workers[i := w] && s'.completed == s.completed && s'.failed == s.failed;
    hide Settled, Partition;
    TalliesMove(cfg, s, i, w);
  }

  lemma TalliesMove(cfg: Config, s: State, i: nat, w: Worker)
    requires i < |s.workers| && s.workers[i].WCounted? && w.WCancelling?
    ensures var ws, failed := s.workers[i := w], s.workers[i].id in cfg.fails;
            && SumOf(ws, Tallied(cfg.fails, false)) == SumOf(s.workers, Tallied(cfg.fails, false)) - (if failed then 0 else 1)
            && SumOf(ws, Tallied(cfg.fails, true)) == SumOf(s.workers, Tallied(cfg.fails, true)) - (if failed then 1 else 0)
            && SumOf(ws, Left) == SumOf(s.workers, Left) + w.left
  {
    SumOfUpdate(s.workers, i, w, Tallied(cfg.fails, false));
    SumOfUpdate(s.workers, i, w, Tallied(cfg.fails, true));
    SumOfUpdate(s.workers, i, w, Left);
  }

  /** A callback step outside the graph raises a counter exactly when its worker's own books say so. */
  lemma LedgerAfterMove(cfg: Config, s: State, s': State, i: nat, w: Worker)
    requires Ledger(cfg, s) && i < |s.workers| && s'.workers == s.workers[i := w] && s'.history == s.history
    requires s'.completed - s.completed == Tallied(cfg.fails, false)(w) - Tallied(cfg.fails, false)(s.workers[i])
    requires s'.failed - s.failed
             == Tallied(cfg.fails, true)(w) - Tallied(cfg.fails, true)(s.workers[i]) + Left(s.workers[i]) - Left(w)
    ensures Ledger(cfg, s')
  {
    SumOfUpdate(s.workers, i, w, Tallied(cfg.fails, false));
    SumOfUpdate(s.workers, i, w, Tallied(cfg.fails, true));
    SumOfUpdate(s.workers, i, w, Left);
  }

  lemma LedgerAfterBegin(cfg: Config, s: State, step: Step)
    requires Ledger(cfg, s) && CanWork(cfg, s, step) && IsBegin(step)
    ensures Ledger(cfg, Begin(cfg, s, step))
  {
    hide Ledger;
    var s' := Begin(cfg, s, step);
    LedgerAfterMove(cfg, s, s', step.i, s'.workers[step.i]);
  }

  lemma LedgerAfterEnd(cfg: Config, s: State, step: Step)
    requires Ledger(cfg, s) && CanWork(cfg, s, step) && IsEnd(step)
    ensures Ledger(cfg, End(cfg, s, step))
  {
    hide Ledger;
    var s' := End(cfg, s, step);
    LedgerAfterMove(cfg, s, s', step.i, s'.workers[step.i]);
  }

  /** Only workers move workers and counters. */
  ghost predicate SameBooks(s: State, s': State) {
    && s'.workers == s.workers && s'.completed == s.completed && s'.failed == s.failed && s'.results == s.results
    && s'.books == s.books
  }

  lemma PushKeepsBooks(cfg: Config, s: State, step: Step)
    requires Refines(s.graph, s.waits) && CanPush(cfg, s, step)
    ensures SameBooks(s, Push(cfg, s, step))
  {
    hide Refines, Add, AddWaits;
  }

  lemma ListenKeepsBooks(cfg: Config, s: State, step: Step)
    requires CanListen(cfg, s, step)
    ensures SameBooks(s, Listen(cfg, s, step))
  {
  }

  lemma LaunchKeepsBooks(cfg: Config, s: State, step: Step)
    requires CanLaunch(cfg, s, step)
    ensures SameBooks(s, Launch(cfg, s, step))
  {
  }

  lemma ControlKeepsBooks(cfg: Config, s: State, step: Step)
    requires CanControl(cfg, s, step)
    ensures SameBooks(s, Control(cfg, s, step))
  {
  }

  lemma BooksUntouched(cfg: Config, s: State, step: Step)
    requires Refines(s.graph, s.waits) && Enabled(cfg, s, step) && !CanWork(cfg, s, step)
    ensures SameBooks(s, Next(cfg, s, step))
  {
    hide Refines, SameBooks, Push, Listen, Launch, Control, CanPush, CanListen, CanLaunch, CanWork, CanControl;
    if CanPush(cfg, s, step) {
      PushKeepsBooks(cfg, s, step);
    } else if CanListen(cfg, s, step) {
      ListenKeepsBooks(cfg, s, step);
    } else if CanLaunch(cfg, s, step) {
      LaunchKeepsBooks(cfg, s, step);
    } else {
      ControlKeepsBooks(cfg, s, step);
    }
  }

  lemma LedgerKept(cfg: Config, s: State, step: Step)
    requires Sound(s) && Staged(s) && Partition(s) && Ledger(cfg, s) && Enabled(cfg, s, step)
    ensures Ledger(cfg, Next(cfg, s, step))
  {
    hide Staged, Partition, Push, Callback, Begin, End, Listen, Launch, Control, Settled, Ledger, Added;
    if step.PushAdd? {
      AddFacts(cfg, s);
      LedgerAfterAdd(cfg, s, Push(cfg, s, step));
    } else if step.WorkRemove? {
      var gone := SettleFacts(cfg, s, step.i);
      LedgerAfterSettle(cfg, s, step.i, Callback(cfg, s, step.i), gone);
    } else if IsBegin(step) {
      LedgerAfterBegin(cfg, s, step);
    } else if IsEnd(step) {
      LedgerAfterEnd(cfg, s, step);
    } else {
      NodesUntouched(cfg, s, step);
      BooksUntouched(cfg, s, step);
      LedgerFrame(cfg, s, Next(cfg, s, step));
    }
  }

  lemma LedgerFrame(cfg: Config, s: State, s': State)
    requires Ledger(cfg, s) && SameNodes(s, s') && SameBooks(s, s')
    ensures Ledger(cfg, s')
  {
  }

  /** With no callback half way, each counter is the size of what it counts. */
  lemma LedgerExact(cfg: Config, s: State)
    requires Ledger(cfg, s) && forall w <- s.workers :: !w.WCounted? && !w.WCancelling?
    ensures s.completed == |s.history.done| && s.failed == |s.history.bad| + |s.history.cancelled|
  {
    SumOfZero(s.workers, Tallied(cfg.fails, false));
    SumOfZero(s.workers, Tallied(cfg.fails, true));
    SumOfZero(s.workers, Left);
  }
}
