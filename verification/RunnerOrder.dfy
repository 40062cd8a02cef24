/** The push channel is a queue: nodes are added in the order of their submission, each with the dependencies it was given. */
module RunnerOrder {
  import opened Nodes
  import opened GraphModel
  import opened Waiting
  import opened Runner
  import opened RunnerSafety
  import opened RunnerLedger
  import opened RunnerBooks
  import opened RunnerRuns

  /** The requests of the clients, in order. */
  function Submitted(steps: seq<Step>): seq<Request> {
    if steps == [] then []
    else
      var step := steps[|steps| - 1];
      Submitted(steps[..|steps| - 1]) + if step.Submit? then [step.req] else []
  }

  /** The first requests have been added, ranked by their place and with their own dependencies; the rest is on its way. */
  ghost predicate InOrder(s: State, all: seq<Request>) {
    var w, rs := s.waits, Requests(s);
    && |all| == w.order.top + |rs|
    && (forall k :: 0 <= k < w.order.top ==>
          && all[k].node.id in w.order.rank && w.order.rank[all[k].node.id] == k
          && all[k].node.id in w.deps && w.deps[all[k].node.id] == all[k].deps)
    && (forall i :: 0 <= i < |rs| ==> all[w.order.top + i] == rs[i])
  }

  lemma OrderFrame(s: State, s': State, all: seq<Request>)
    requires InOrder(s, all) && Requests(s') == Requests(s)
    requires s'.waits.order == s.waits.order && s'.waits.deps == s.waits.deps
    ensures InOrder(s', all)
  {
  }

  lemma OrderAfterSubmit(s: State, s': State, all: seq<Request>, req: Request)
    requires InOrder(s, all) && Requests(s') == Requests(s) + [req] && s'.waits == s.waits
    ensures InOrder(s', all + [req])
  {
  }

  lemma OrderAfterAdd(s: State, s': State, all: seq<Request>)
    requires InOrder(s, all) && s.pusher.PAdding? && Added(s, s')
    ensures InOrder(s', all)
  {
    var rs, rs' := Requests(s), Requests(s');
    assert rs == [s.pusher.req] + rs';
    assert all[s.waits.order.top] == rs[0];
    forall i | 0 <= i < |rs'|
      ensures all[s'.waits.order.top + i] == rs'[i]
    {
      assert rs'[i] == rs[i + 1];
    }
    forall k | 0 <= k < s.waits.order.top
      ensures all[k].node.id != s.pusher.req.node.id
    {
      assert all[k].node.id in s.waits.order.rank.Keys;
    }
  }

  lemma PushInOrder(cfg: Config, s: State, step: Step, all: seq<Request>)
    requires Sound(s) && CanPush(cfg, s, step) && InOrder(s, all)
    ensures InOrder(Push(cfg, s, step), if step.Submit? then all + [step.req] else all)
  {
    var s' := Push(cfg, s, step);
    if step.PushAdd? {
      AddFacts(cfg, s);
      hide Push, Refines, InOrder;
      OrderAfterAdd(s, s', all);
    } else {
      hide Refines, Add, AddWaits, InOrder;
      if step.Submit? {
        assert Requests(s') == Requests(s) + [step.req];
        OrderAfterSubmit(s, s', all, step.req);
      } else {
        assert Requests(s') == Requests(s);
        OrderFrame(s, s', all);
      }
    }
  }

  lemma SettleInOrder(cfg: Config, s: State, i: nat, s': State, gone: set<NodeId>, all: seq<Request>)
    requires InOrder(s, all) && i < |s.workers| && s.workers[i].WCounted? && Settled(cfg, s, i, s', gone)
    ensures InOrder(s', all)
  {
    hide InOrder;
    assert Requests(s') == Requests(s);
    OrderFrame(s, s', all);
  }

  lemma StepInOrder(cfg: Config, s: State, step: Step, all: seq<Request>)
    requires Sound(s) && Staged(s) && Enabled(cfg, s, step) && InOrder(s, all)
    ensures InOrder(Next(cfg, s, step), if step.Submit? then all + [step.req] else all)
  {
    SubmitIsPush(cfg, s, step);
    hide Staged, Refines, FreshRequests, NoNil, InOrder, Settled, Push, Listen, Launch, Begin, End, Callback, Control,
         CanListen, CanLaunch, CanControl, CanPush, Requests;
    if CanPush(cfg, s, step) {
      PushInOrder(cfg, s, step, all);
    } else if CanWork(cfg, s, step) && !IsBegin(step) && !IsEnd(step) {
      WorkIsNext(cfg, s, step);
      var gone := SettleFacts(cfg, s, step.i);
      SettleInOrder(cfg, s, step.i, Callback(cfg, s, step.i), gone, all);
    } else {
      OthersKeepOrder(cfg, s, step);
      OrderFrame(s, Next(cfg, s, step), all);
    }
  }

  lemma SubmitIsPush(cfg: Config, s: State, step: Step)
    requires Enabled(cfg, s, step)
    ensures step.Submit? ==> CanPush(cfg, s, step)
  {
  }

  lemma WorkIsNext(cfg: Config, s: State, step: Step)
    requires Refines(s.graph, s.waits) && CanWork(cfg, s, step) && !IsBegin(step) && !IsEnd(step)
    ensures step.WorkRemove? && Enabled(cfg, s, step) && Next(cfg, s, step) == Callback(cfg, s, step.i)
  {
    hide Refines, Callback;
  }

  lemma OthersKeepOrder(cfg: Config, s: State, step: Step)
    requires Refines(s.graph, s.waits) && Enabled(cfg, s, step) && !CanPush(cfg, s, step)
    requires CanWork(cfg, s, step) ==> IsBegin(step) || IsEnd(step)
    ensures var s' := Next(cfg, s, step);
            Requests(s') == Requests(s) && s'.waits.order == s.waits.order && s'.waits.deps == s.waits.deps
  {
    assert !step.PushAdd? && !step.WorkRemove? && !step.Submit? by {
      OnlyThose(cfg, s, step);
    }
    NodesUntouched(cfg, s, step);
    RequestsUntouched(cfg, s, step);
  }

  lemma OnlyThose(cfg: Config, s: State, step: Step)
    requires Enabled(cfg, s, step) && !CanPush(cfg, s, step)
    requires CanWork(cfg, s, step) ==> IsBegin(step) || IsEnd(step)
    ensures !step.PushAdd? && !step.WorkRemove? && !step.Submit?
  {
  }

  lemma InvInOrder(cfg: Config, s: State, step: Step, all: seq<Request>)
    requires Inv(cfg, s) && Enabled(cfg, s, step) && InOrder(s, all)
    ensures InOrder(Next(cfg, s, step), if step.Submit? then all + [step.req] else all)
  {
    hide Sound, Staged, Enabled, Next, InOrder;
    StepInOrder(cfg, s, step, all);
  }

  lemma {:induction false} EveryRunInOrder(cfg: Config, steps: seq<Step>)
    requires Exec(cfg, steps).Some?
    ensures InOrder(Exec(cfg, steps).value, Submitted(steps))
  {
    hide Inv, Enabled, Next, InOrder;
    if steps == [] {
      NothingSubmitted(cfg);
    } else {
      var front, last := steps[..|steps| - 1], steps[|steps| - 1];
      EveryRunInOrder(cfg, front);
      InvInOrder(cfg, Exec(cfg, front).value, last, Submitted(front));
      assert Submitted(front) + [] == Submitted(front);
    }
  }

  lemma NothingSubmitted(cfg: Config)
    ensures InOrder(Init(cfg), Submitted([]))
  {
  }

  /**
   In every run the nodes added are the first ones submitted, in that order, each with exactly the dependencies its client
   gave; the push listener reorders and drops nothing.
   */
  lemma AddedAsSubmitted(cfg: Config, steps: seq<Step>, k: nat)
    requires Exec(cfg, steps).Some? && k < Exec(cfg, steps).value.waits.order.top
    ensures var w, all := Exec(cfg, steps).value.waits, Submitted(steps);
            && w.order.top <= |all|
            && all[k].node.id in w.deps && w.deps[all[k].node.id] == all[k].deps
            && all[k].node.id in w.order.rank && w.order.rank[all[k].node.id] == k
  {
    EveryRunInOrder(cfg, steps);
  }
}
