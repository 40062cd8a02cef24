/** The nodes themselves: what is queued, and in which order it is launched, by the tokens its client estimated. */
module RunnerNodes {
  import opened Nodes
  import opened GraphModel
  import opened Waiting
  import opened Subtree
  import opened Runner
  import opened RunnerSafety
  import opened RunnerRuns
  import opened RunnerProgress
  import opened RunnerPause

  /** Every stage up to the queue holds the nodes as they were submitted; a node's priority is its estimated tokens. */
  ghost predicate Unchanged(s: State) {
    var pushed, rs := s.history.pushed, Requests(s);
    && pushed.Keys == s.history.submitted
    && AsPushed(s.graph, pushed)
    && (forall i :: 0 <= i < |rs| ==> rs[i].node.id in pushed && rs[i].node == pushed[rs[i].node.id])
    && (s.listener.LGot? ==> s.listener.id in pushed && s.listener.tokens == pushed[s.listener.id].tokens)
    && (forall x <- s.heap :: x in pushed && x in s.priority && s.priority[x] == pushed[x].tokens)
  }

  lemma UnchangedFrame(s: State, s': State)
    requires Unchanged(s) && s'.history.pushed == s.history.pushed && s'.history.submitted == s.history.submitted
    requires AsPushed(s'.graph, s.history.pushed) && s'.pusher == s.pusher && s'.pushChan == s.pushChan
    requires s'.listener == s.listener && s'.priority == s.priority && forall x <- s'.heap :: x in s.heap
    ensures Unchanged(s')
  {
    assert Requests(s') == Requests(s);
  }

  lemma SubmitUnchanged(cfg: Config, s: State, req: Request)
    requires Unchanged(s) && Refines(s.graph, s.waits) && CanPush(cfg, s, Submit(req))
    ensures Unchanged(Push(cfg, s, Submit(req)))
  {
    hide Refines;
    var s' := Push(cfg, s, Submit(req));
    assert Requests(s') == Requests(s) + [req];
  }

  lemma AddUnchanged(cfg: Config, s: State)
    requires Unchanged(s) && Refines(s.graph, s.waits) && CanPush(cfg, s, PushAdd)
    ensures Unchanged(Push(cfg, s, PushAdd))
  {
    var node := s.pusher.req.node;
    assert Requests(s)[0] == s.pusher.req;
    AddAsPushed(s.graph, node, s.pusher.req.deps, s.history.pushed);
    assert s.history.pushed[node.id := node] == s.history.pushed;
    hide Refines, Add, AddWaits, AsPushed;
    OneRequestLess(s, Push(cfg, s, PushAdd));
  }

  lemma OneRequestLess(s: State, s': State)
    requires Unchanged(s) && s.pusher.PAdding? && s'.pusher.PIdle? && s'.pushChan == s.pushChan
    requires s'.history.pushed == s.history.pushed && s'.history.submitted == s.history.submitted
    requires AsPushed(s'.graph, s.history.pushed) && s'.listener == s.listener && s'.priority == s.priority && s'.heap == s.heap
    ensures Unchanged(s')
  {
    hide AsPushed;
    assert Requests(s) == [s.pusher.req] + Requests(s');
    forall i | 0 <= i < |Requests(s')|
      ensures Requests(s')[i].node.id in s.history.pushed && Requests(s')[i].node == s.history.pushed[Requests(s')[i].node.id]
    {
      assert Requests(s')[i] == Requests(s)[i + 1];
    }
  }

  lemma PushUnchanged(cfg: Config, s: State, step: Step)
    requires Unchanged(s) && Refines(s.graph, s.waits) && CanPush(cfg, s, step)
    ensures Unchanged(Push(cfg, s, step))
  {
    if step.Submit? {
      SubmitUnchanged(cfg, s, step.req);
    } else if step.PushAdd? {
      AddUnchanged(cfg, s);
    } else {
      hide Refines, Add, AddWaits, AsPushed;
      assert Requests(Push(cfg, s, step)) == Requests(s);
    }
  }

  lemma ListenUnchanged(cfg: Config, s: State, step: Step)
    requires Unchanged(s) && CanListen(cfg, s, step)
    ensures Unchanged(Listen(cfg, s, step))
  {
    var s' := Listen(cfg, s, step);
    assert Requests(s') == Requests(s);
    if step.ListenTake? {
      assert s.graph.ready[0] in s.graph.ready && forall o <- s.graph.ready[1..] :: o in s.graph.ready;
    }
  }

  lemma LaunchUnchanged(cfg: Config, s: State, step: Step)
    requires Unchanged(s) && CanLaunch(cfg, s, step)
    ensures Unchanged(Launch(cfg, s, step))
  {
    hide Unchanged, AsPushed;
    GraphUnchanged(s);
    UnchangedFrame(s, Launch(cfg, s, step));
  }

  lemma GraphUnchanged(s: State)
    requires Unchanged(s)
    ensures AsPushed(s.graph, s.history.pushed)
  {
  }

  lemma ControlUnchanged(cfg: Config, s: State, step: Step)
    requires Unchanged(s) && CanControl(cfg, s, step)
    ensures Unchanged(Control(cfg, s, step))
  {
    hide Unchanged, AsPushed;
    GraphUnchanged(s);
    UnchangedFrame(s, Control(cfg, s, step));
  }

  lemma StepUnchanged(cfg: Config, s: State, step: Step)
    requires Unchanged(s) && CanWork(cfg, s, step) && (IsBegin(step) || IsEnd(step))
    ensures Unchanged(if IsBegin(step) then Begin(cfg, s, step) else End(cfg, s, step))
  {
    hide Unchanged, AsPushed;
    GraphUnchanged(s);
    UnchangedFrame(s, if IsBegin(step) then Begin(cfg, s, step) else End(cfg, s, step));
  }

  lemma CallbackKeeps(cfg: Config, s: State, i: nat)
    requires CanWork(cfg, s, WorkRemove(i)) && Refines(s.graph, s.waits)
    ensures var s' := Callback(cfg, s, i);
            && s'.history.pushed == s.history.pushed && s'.history.submitted == s.history.submitted
            && s'.pusher == s.pusher && s'.pushChan == s.pushChan && s'.listener == s.listener
            && s'.priority == s.priority && s'.heap == s.heap
            && s'.graph == if s.workers[i].id in cfg.fails && cfg.propagate
                           then RemoveSubtree(s.graph, s.workers[i].id, s.waits.order).0
                           else RemoveNode(s.graph, s.workers[i].id, true)
  {
    hide Refines, RemoveSubtree, RemoveNode, RemoveWaits, CancelWaits, Members;
    if s.workers[i].id in cfg.fails && cfg.propagate {
      hide LeftAlone;
    } else {
      hide LeftWith;
    }
  }

  lemma SubtreeAsPushed(g: Graph, w: Waits, id: NodeId, pushed: map<NodeId, WorkNode>)
    requires Refines(g, w) && AsPushed(g, pushed)
    ensures AsPushed(RemoveSubtree(g, id, w.order).0, pushed)
  {
    RemoveSubtreeExact(g, id, w.order);
  }

  lemma CallbackUnchanged(cfg: Config, s: State, i: nat)
    requires Unchanged(s) && Sound(s) && CanWork(cfg, s, WorkRemove(i))
    ensures Unchanged(Callback(cfg, s, i))
  {
    var id := s.workers[i].id;
    GraphUnchanged(s);
    CallbackKeeps(cfg, s, i);
    assert forall n <- s.graph.nodes :: s.graph.nodes[n].id == n;
    hide Unchanged, AsPushed, Refines, RemoveSubtree, RemoveNode, Callback;
    if id in cfg.fails && cfg.propagate {
      SubtreeAsPushed(s.graph, s.waits, id, s.history.pushed);
    } else {
      RemoveAsPushed(s.graph, id, s.history.pushed);
    }
    UnchangedFrame(s, Callback(cfg, s, i));
  }

  lemma UnchangedKept(cfg: Config, s: State, step: Step)
    requires Sound(s) && Unchanged(s) && Enabled(cfg, s, step)
    ensures Unchanged(Next(cfg, s, step))
  {
    hide Unchanged, Refines, FreshRequests, NoNil, Push, Listen, Launch, Begin, End, Callback, Control,
         CanPush, CanListen, CanLaunch, CanControl;
    if CanPush(cfg, s, step) {
      PushUnchanged(cfg, s, step);
    } else if CanListen(cfg, s, step) {
      ListenUnchanged(cfg, s, step);
    } else if CanLaunch(cfg, s, step) {
      LaunchUnchanged(cfg, s, step);
    } else if CanWork(cfg, s, step) {
      if IsBegin(step) || IsEnd(step) {
        StepUnchanged(cfg, s, step);
      } else {
        CallbackUnchanged(cfg, s, step.i);
      }
    } else {
      ControlUnchanged(cfg, s, step);
    }
  }

  lemma InvUnchanged(cfg: Config, s: State, step: Step)
    requires Inv(cfg, s) && Unchanged(s) && Enabled(cfg, s, step)
    ensures Unchanged(Next(cfg, s, step))
  {
    hide Sound, Enabled, Next, Unchanged;
    UnchangedKept(cfg, s, step);
  }

  lemma {:induction false} EveryRunKeepsNodes(cfg: Config, steps: seq<Step>)
    requires Exec(cfg, steps).Some?
    ensures Unchanged(Exec(cfg, steps).value)
  {
    hide Inv, Enabled, Next;
    if steps != [] {
      EveryRunKeepsNodes(cfg, steps[..|steps| - 1]);
      InvUnchanged(cfg, Exec(cfg, steps[..|steps| - 1]).value, steps[|steps| - 1]);
    }
  }

  // ---------------------------------------------------------------- the nodes of the clients

  lemma PushedStays(cfg: Config, s: State, step: Step, node: WorkNode)
    requires Inv(cfg, s) && Unchanged(s) && Enabled(cfg, s, step)
    requires node.id in s.history.pushed && s.history.pushed[node.id] == node
    ensures node.id in Next(cfg, s, step).history.pushed && Next(cfg, s, step).history.pushed[node.id] == node
  {
    InvUnchanged(cfg, s, step);
    HistoryKeepsPushed(cfg, s, step);
  }

  lemma PushRecords(cfg: Config, s: State, step: Step)
    requires Refines(s.graph, s.waits) && CanPush(cfg, s, step)
    ensures Push(cfg, s, step).history.pushed
            == if step.Submit? then s.history.pushed[step.req.node.id := step.req.node] else s.history.pushed
  {
    hide Refines, Add, AddWaits;
  }

  lemma WorkRecords(cfg: Config, s: State, step: Step)
    requires Refines(s.graph, s.waits) && CanWork(cfg, s, step)
    ensures Work(cfg, s, step).history.pushed == s.history.pushed
  {
    hide Refines, Callback;
    if !IsBegin(step) && !IsEnd(step) {
      CallbackKeeps(cfg, s, step.i);
    }
  }

  lemma HistoryKeepsPushed(cfg: Config, s: State, step: Step)
    requires Sound(s) && Enabled(cfg, s, step)
    ensures Next(cfg, s, step).history.pushed
            == if step.Submit? then s.history.pushed[step.req.node.id := step.req.node] else s.history.pushed
  {
    if step.Submit? {
      SubmitIsPush(cfg, s, step);
    }
    hide FreshRequests, NoNil, Refines, Push, Listen, Launch, Work, Control,
         CanPush, CanListen, CanLaunch, CanWork, CanControl;
    if CanPush(cfg, s, step) {
      PushRecords(cfg, s, step);
    } else if CanWork(cfg, s, step) {
      WorkRecords(cfg, s, step);
    } else {
      OthersRecord(cfg, s, step);
    }
  }

  lemma SubmitIsPush(cfg: Config, s: State, step: Step)
    requires Enabled(cfg, s, step) && step.Submit?
    ensures CanPush(cfg, s, step)
  {
  }

  lemma ListenRecords(cfg: Config, s: State, step: Step)
    requires CanListen(cfg, s, step)
    ensures Listen(cfg, s, step).history.pushed == s.history.pushed
  {
  }

  lemma LaunchRecords(cfg: Config, s: State, step: Step)
    requires CanLaunch(cfg, s, step)
    ensures Launch(cfg, s, step).history.pushed == s.history.pushed
  {
    assert step.LaunchTake? || step.LaunchPauseCheck? || step.LaunchPop? || step.LaunchEmpty?
           || step.LaunchGrant? || step.LaunchDispatch? || step.LaunchCount?;
    hide CanLaunch, Priority;
  }

  lemma OthersRecord(cfg: Config, s: State, step: Step)
    ensures CanListen(cfg, s, step) ==> Listen(cfg, s, step).history.pushed == s.history.pushed
    ensures CanLaunch(cfg, s, step) ==> Launch(cfg, s, step).history.pushed == s.history.pushed
    ensures CanControl(cfg, s, step) ==> Control(cfg, s, step).history.pushed == s.history.pushed
  {
    hide CanListen, CanLaunch, Listen, Launch;
    if CanListen(cfg, s, step) {
      ListenRecords(cfg, s, step);
    }
    if CanLaunch(cfg, s, step) {
      LaunchRecords(cfg, s, step);
    }
  }

  /** The history records the nodes that the clients submitted. */
  lemma {:induction false} PushedIsSubmitted(cfg: Config, steps: seq<Step>, i: nat)
    requires Exec(cfg, steps).Some? && i < |steps| && steps[i].Submit?
    ensures var node, pushed := steps[i].req.node, Exec(cfg, steps).value.history.pushed;
            node.id in pushed && pushed[node.id] == node
  {
    hide Inv, Enabled, Next, Unchanged;
    var front, last := steps[..|steps| - 1], steps[|steps| - 1];
    EveryRunKeepsNodes(cfg, front);
    if i == |front| {
      SubmittedNow(cfg, Exec(cfg, front).value, last);
    } else {
      assert front[i] == steps[i];
      PushedIsSubmitted(cfg, front, i);
      PushedStays(cfg, Exec(cfg, front).value, last, steps[i].req.node);
    }
  }

  lemma SubmittedNow(cfg: Config, s: State, step: Step)
    requires Inv(cfg, s) && Enabled(cfg, s, step) && step.Submit?
    ensures var pushed := Next(cfg, s, step).history.pushed;
            step.req.node.id in pushed && pushed[step.req.node.id] == step.req.node
  {
    HistoryKeepsPushed(cfg, s, step);
  }

  /** In every run, a submitted node is stored, received and queued with the tokens its client gave it. */
  lemma NodeAsSubmitted(cfg: Config, steps: seq<Step>, i: nat)
    requires Exec(cfg, steps).Some? && i < |steps| && steps[i].Submit?
    ensures var node, s := steps[i].req.node, Exec(cfg, steps).value;
            && (node.id in s.graph.nodes ==> s.graph.nodes[node.id] == node)
            && (forall o <- s.graph.ready | o.Some? && o.value.id == node.id :: o.value == node)
            && (s.listener.LGot? && s.listener.id == node.id ==> s.listener.tokens == node.tokens)
            && (node.id in s.heap ==> Priority(s, node.id) == node.tokens)
  {
    EveryRunKeepsNodes(cfg, steps);
    PushedIsSubmitted(cfg, steps, i);
  }

  /** Larger requests first: no queued node has more estimated tokens than the one that leaves the queue. */
  lemma LargestFirst(cfg: Config, steps: seq<Step>, id: NodeId)
    requires Exec(cfg, steps).Some? && Exec(cfg, steps + [LaunchPop(id)]).Some?
    ensures var s := Exec(cfg, steps).value;
            && id in s.heap && id in s.history.pushed
            && forall x <- s.heap :: x in s.history.pushed && s.history.pushed[x].tokens <= s.history.pushed[id].tokens
  {
    hide Inv, Exec, Next, Enabled, Unchanged;
    EveryRunKeepsNodes(cfg, steps);
    assert steps + ([] + [LaunchPop(id)]) == steps + [LaunchPop(id)] && steps + [] == steps;
    ExecMore(cfg, steps, [], LaunchPop(id));
    PopsLargest(cfg, Exec(cfg, steps).value, id);
  }

  lemma PopsLargest(cfg: Config, s: State, id: NodeId)
    requires Unchanged(s) && Enabled(cfg, s, LaunchPop(id))
    ensures id in s.heap && id in s.history.pushed
    ensures forall x <- s.heap :: x in s.history.pushed && s.history.pushed[x].tokens <= s.history.pushed[id].tokens
  {
    assert CanLaunch(cfg, s, LaunchPop(id));
    forall x <- s.heap
      ensures x in s.history.pushed && s.history.pushed[x].tokens <= s.history.pushed[id].tokens
    {
      assert Priority(s, x) <= Priority(s, id);
    }
  }
}
