/** How far the usage of one minute can exceed the budget, over every run of one process. */
module BudgetBound {
  import opened Nodes
  import opened RateLimit
  import opened ConsumptionTracker
  import opened Budget

  /** The clock never runs back, and nothing is recorded after the back end's minute. */
  ghost predicate Clocked(s: State) {
    && s.book.minute <= Minute(s.now) && s.local.minute <= Minute(s.now)
    && (forall e <- s.log :: Minute(e.at) <= s.book.minute)
    && (forall m :: Straddlers(s.log, m) <= 1)
    && (s.phase.Half? ==> s.book.minute == Minute(s.phase.asked))
    && (s.phase.Granted? ==> s.book.minute == Minute(s.phase.grant.asked))
    && (s.phase.Granted? ==> s.book.minute <= s.local.minute)
  }

  predicate Budgeted(limits: Limits, s: State) {
    && s.local.groq == limits.groq && s.local.openai == limits.openai
    && s.book.Budget(Groq) == limits.groq && s.book.Budget(OpenAI) == limits.openai
  }

  /** The bound for one minute, and exactly when the budget itself is exceeded. */
  ghost predicate MinuteBounded(log: seq<Entry>, cap: int, p: Provider, k: Kind, m: nat) {
    && Recorded(log, p, k, m) <= cap + Straddled(log, p, k, m)
    && Straddled(log, p, k, m) <= cap
    && (Recorded(log, p, k, m) > cap <==> SomeLetThrough(log, p, k, m))
  }

  function Used(s: State, p: Provider, k: Kind): int {
    Part(s.book.Used(p), k)
  }

  function Stray(s: State, p: Provider, k: Kind): nat {
    Straddled(s.log, p, k, s.book.minute)
  }

  /** The back end holds what was recorded in its minute; the tracker misses at most what straddled into it. */
  ghost predicate Matched(s: State, p: Provider, k: Kind) {
    && Used(s, p, k) == Recorded(s.log, p, k, s.book.minute)
    && Part(s.local.Used(p), k) >= 0
    && (s.local.minute < s.book.minute ==> Used(s, p, k) <= Stray(s, p, k))
    && (s.local.minute == s.book.minute ==> Part(s.local.Used(p), k) >= Used(s, p, k) - Stray(s, p, k))
  }

  ghost predicate Checked(s: State, cap: int, p: Provider, k: Kind) {
    && (s.phase.Half? && s.phase.provider == p ==> Part(s.phase.shared, k) == Floor(cap - Used(s, p, k)))
    && (s.phase.Granted? && s.phase.provider == p ==>
          var need := Need(s.phase.tokens, k);
          && GrantFits(s.phase.grant, need, k)
          && Part(s.phase.grant.shared, k) == Floor(cap - Used(s, p, k))
          && need <= cap
          && (s.local.minute == s.book.minute ==> Used(s, p, k) + need <= cap + Stray(s, p, k)))
  }

  /** More than the back end has left is granted only by the lenient branch. */
  predicate GrantFits(g: Grant, need: nat, k: Kind) {
    need <= Part(g.shared, k) || (InTransition(g.late) && Part(g.shared, k) == 0 < Part(g.local, k))
  }

  ghost predicate Column(s: State, cap: int, p: Provider, k: Kind) {
    && cap >= 0
    && (forall m :: MinuteBounded(s.log, cap, p, k, m))
    && Matched(s, p, k)
    && Checked(s, cap, p, k)
  }

  ghost predicate Inv(limits: Limits, s: State) {
    && Clocked(s) && Budgeted(limits, s)
    && forall p, k | Known(p) :: Column(s, Cap(limits.Of(p), k), p, k)
  }

  lemma InitInv(limits: Limits, built: Time, started: Time)
    requires limits.Valid() && built <= started
    ensures Inv(limits, Init(limits, built, started))
  {
    MinuteMonotone(built, started);
  }

  lemma MinuteMonotone(t: Time, u: Time)
    requires t <= u
    ensures Minute(t) <= Minute(u)
  {
  }

  lemma ClockedKept(s: State, step: Step)
    requires Clocked(s) && Enabled(s, step)
    ensures Clocked(Next(s, step))
  {
    var s' := Next(s, step);
    MinuteMonotone(s.now, s'.now);
    if step.Record? {
      var e := s'.log[|s.log|];
      forall m
        ensures Straddlers(s'.log, m) <= 1
      {
        Appended(s.log, e, e.provider, Tokens, m);
        if Minute(e.at) == m && Straddles(e) {
          NothingLater(s.log, e.provider, Tokens, m);
        }
      }
    }
  }

  lemma BudgetedKept(limits: Limits, s: State, step: Step)
    requires Budgeted(limits, s) && Enabled(s, step)
    ensures Budgeted(limits, Next(s, step))
  {
  }

  /** A back end call that may cross into a new minute. */
  lemma BookRefreshed(s: State, cap: int, p: Provider, k: Kind, s': State)
    requires Clocked(s) && Column(s, cap, p, k)
    requires s'.book == s.book.At(s.now) && s'.local == s.local && s'.log == s.log && s'.now == s.now
    requires !s'.phase.Granted? && (s'.phase.Half? ==> s'.phase.shared == s'.book.Left(s'.phase.provider))
    requires Part(s'.book.Left(p), k) == Floor(cap - Used(s', p, k))
    ensures Column(s', cap, p, k)
  {
    if s'.book != s.book {
      NothingLater(s.log, p, k, s'.book.minute);
    }
  }

  /** The tracker moves to the current minute. */
  lemma LocalReset(s: State, cap: int, p: Provider, k: Kind, s': State)
    requires Clocked(s) && Column(s, cap, p, k) && Known(p)
    requires s'.local.minute == Minute(s.now)
    requires s'.local == s.local || (s.local.minute < Minute(s.now) && s'.local.Used(p) == NO_USAGE)
    requires s'.book == s.book && s'.log == s.log
    ensures Matched(s', p, k)
    ensures s'.phase == s.phase ==> Checked(s', cap, p, k)
  {
  }

  lemma GrantChecked(s: State, limits: Limits, p: Provider, k: Kind, late: Time)
    requires Inv(limits, s) && Known(p) && s.phase.Half? && late >= s.now
    ensures Checked(Next(s, AskLocal(late)), Cap(limits.Of(p), k), p, k)
  {
    var s' := Next(s, AskLocal(late));
    var cap := Cap(limits.Of(p), k);
    assert Column(s, cap, p, k);
    LocalReset(s, cap, p, k, s');
    if s'.phase.Granted? && s.phase.provider == p {
      var shared, local := Part(s.phase.shared, k), Part(s'.local.Left(p), k);
      assert local == cap - Part(s'.local.Used(p), k);
      OfferExceeds(shared, local, InTransition(late));
      assert Need(s.phase.tokens, k) <= Offer(shared, local, InTransition(late));
      assert MinuteBounded(s.log, cap, p, k, s.book.minute);
    }
  }

  /** The books before and after one record. */
  lemma RecordedBooks(s: State, p: Provider, k: Kind)
    requires Clocked(s) && s.phase.Granted?
    ensures var s' := Next(s, Record);
            && s'.book.minute == Minute(s.now) && s'.local.minute == s.local.minute
            && Used(s', p, k) == (if s'.book.minute == s.book.minute then Used(s, p, k) else 0)
                                 + (if s.phase.provider == p then Need(s.phase.tokens, k) else 0)
            && Part(s'.local.Used(p), k) == Part(s.local.Used(p), k)
                                            + (if s.phase.provider == p then Need(s.phase.tokens, k) else 0)
            && s'.log == s.log + [ThisRecord(s)]
  {
  }

  function ThisRecord(s: State): Entry
    requires s.phase.Granted?
  {
    Entry(s.phase.provider, s.phase.tokens, s.phase.grant, s.now)
  }

  lemma RecordedBounded(s: State, cap: int, p: Provider, k: Kind, e: Entry, m: nat)
    requires Clocked(s) && MinuteBounded(s.log, cap, p, k, m) && cap >= 0
    requires Used(s, p, k) == Recorded(s.log, p, k, s.book.minute)
    requires s.book.minute == Minute(e.grant.asked) <= Minute(e.at)
    requires e.provider == p ==>
               && GrantFits(e.grant, Amount(e, k), k)
               && Part(e.grant.shared, k) == Floor(cap - Used(s, p, k)) && Amount(e, k) <= cap
               && (!Straddles(e) ==> Used(s, p, k) + Amount(e, k) <= cap + Stray(s, p, k))
    ensures MinuteBounded(s.log + [e], cap, p, k, m)
  {
    Appended(s.log, e, p, k, m);
    if Straddles(e) && m == Minute(e.at) {
      NothingLater(s.log, p, k, m);
    }
    hide SomeLetThrough, Recorded, Straddled, Straddlers;
  }

  lemma RecordedMatched(s: State, p: Provider, k: Kind)
    requires Clocked(s) && Matched(s, p, k) && s.phase.Granted?
    ensures Matched(Next(s, Record), p, k)
  {
    hide Recorded, Straddled, Straddlers, SomeLetThrough, Next, Used;
    var m := Minute(s.now);
    RecordedBooks(s, p, k);
    Appended(s.log, ThisRecord(s), p, k, m);
    if m != s.book.minute {
      NothingLater(s.log, p, k, m);
    }
  }

  lemma RecordedColumn(s: State, cap: int, p: Provider, k: Kind)
    requires Clocked(s) && Column(s, cap, p, k) && s.phase.Granted?
    ensures Column(Next(s, Record), cap, p, k)
  {
    var s' := Next(s, Record);
    var e := Entry(s.phase.provider, s.phase.tokens, s.phase.grant, s.now);
    assert s'.log == s.log + [e] && s'.phase.Reporting?;
    assert e.provider == p ==> Amount(e, k) == Need(s.phase.tokens, k);
    RecordedMatched(s, p, k);
    hide Recorded, Straddled, Straddlers, SomeLetThrough, MinuteBounded, Next, Used;
    forall m
      ensures MinuteBounded(s'.log, cap, p, k, m)
    {
      RecordedBounded(s, cap, p, k, e, m);
    }
  }

  lemma AskColumn(limits: Limits, s: State, step: Step, p: Provider, k: Kind)
    requires Inv(limits, s) && Enabled(s, step) && Known(p) && (step.AskShared? || step.ReportShared?)
    ensures Column(Next(s, step), Cap(limits.Of(p), k), p, k)
  {
    hide MinuteBounded, Recorded, Straddled;
    assert Column(s, Cap(limits.Of(p), k), p, k);
    BookRefreshed(s, Cap(limits.Of(p), k), p, k, Next(s, step));
  }

  lemma LocalColumn(limits: Limits, s: State, step: Step, p: Provider, k: Kind)
    requires Inv(limits, s) && Enabled(s, step) && Known(p) && (step.AskLocal? || step.ReportLocal? || step.Cycle?)
    ensures Column(Next(s, step), Cap(limits.Of(p), k), p, k)
  {
    hide MinuteBounded, Recorded, Straddled;
    assert Column(s, Cap(limits.Of(p), k), p, k);
    LocalReset(s, Cap(limits.Of(p), k), p, k, Next(s, step));
    if step.AskLocal? {
      GrantChecked(s, limits, p, k, step.late);
    }
  }

  lemma ColumnKept(limits: Limits, s: State, step: Step, p: Provider, k: Kind)
    requires Inv(limits, s) && Enabled(s, step) && Known(p)
    ensures Column(Next(s, step), Cap(limits.Of(p), k), p, k)
  {
    hide Matched, MinuteBounded;
    if step.AskShared? || step.ReportShared? {
      AskColumn(limits, s, step, p, k);
    } else if step.AskLocal? || step.ReportLocal? || step.Cycle? {
      LocalColumn(limits, s, step, p, k);
    } else {
      assert Column(s, Cap(limits.Of(p), k), p, k);
      if step.Record? {
        RecordedColumn(s, Cap(limits.Of(p), k), p, k);
      } else {
        Untouched(s, Next(s, step), p, k);
      }
    }
  }

  lemma Untouched(s: State, s': State, p: Provider, k: Kind)
    requires Matched(s, p, k) && s'.book == s.book && s'.local == s.local && s'.log == s.log
    ensures Matched(s', p, k)
  {
  }

  lemma NextInv(limits: Limits, s: State, step: Step)
    requires Inv(limits, s) && Enabled(s, step)
    ensures Inv(limits, Next(s, step))
  {
    ClockedKept(s, step);
    BudgetedKept(limits, s, step);
    hide Clocked, Budgeted, Column;
    forall p, k | Known(p)
      ensures Column(Next(s, step), Cap(limits.Of(p), k), p, k)
    {
      ColumnKept(limits, s, step, p, k);
    }
  }

  // ---------------------------------------------------------------- runs

  /** The state after the steps, or `None` when one of them could not be taken. */
  ghost function Exec(limits: Limits, built: Time, started: Time, steps: seq<Step>): (r: Option<State>)
    requires limits.Valid() && built <= started
    ensures r.Some? ==> Inv(limits, r.value)
  {
    if steps == [] then
      InitInv(limits, built, started);
      Some(Init(limits, built, started))
    else
      var before := Exec(limits, built, started, steps[..|steps| - 1]);
      var step := steps[|steps| - 1];
      if before.Some? && Enabled(before.value, step) then
        NextInv(limits, before.value, step);
        Some(Next(before.value, step))
      else None
  }

  /**
   In any minute of any run, whatever the interleaving with the minute timer and however near a boundary: at most one
   record was checked in an earlier minute, and the minute's usage exceeds its budget by no more than that record, which
   itself fits the budget. The budget itself is exceeded exactly when the lenient branch let a request through that the
   back end had no room for.
   */
  lemma MinuteBound(limits: Limits, built: Time, started: Time, steps: seq<Step>, p: Provider, k: Kind, m: nat)
    requires limits.Valid() && built <= started && Known(p)
    requires Exec(limits, built, started, steps).Some?
    ensures var log, cap := Exec(limits, built, started, steps).value.log, Cap(limits.Of(p), k);
            && Straddlers(log, m) <= 1
            && Recorded(log, p, k, m) <= cap + Straddled(log, p, k, m) <= 2 * cap
            && (Straddlers(log, m) == 0 ==> Recorded(log, p, k, m) <= cap)
            && (Recorded(log, p, k, m) > cap <==> SomeLetThrough(log, p, k, m))
  {
    var s := Exec(limits, built, started, steps).value;
    StraddledWithin(s.log, p, k, m);
    assert Column(s, Cap(limits.Of(p), k), p, k);
    assert MinuteBounded(s.log, Cap(limits.Of(p), k), p, k, m);
  }

  /** No check near a boundary, no excess; a caller can see to that by its own clock. */
  lemma AwayFromBoundary(limits: Limits, built: Time, started: Time, steps: seq<Step>, p: Provider, k: Kind, m: nat)
    requires limits.Valid() && built <= started && Known(p)
    requires Exec(limits, built, started, steps).Some?
    requires forall e <- Exec(limits, built, started, steps).value.log ::
               e.provider == p && Minute(e.at) == m ==> !InTransition(e.grant.late)
    ensures Recorded(Exec(limits, built, started, steps).value.log, p, k, m) <= Cap(limits.Of(p), k)
  {
    MinuteBound(limits, built, started, steps, p, k, m);
  }

  lemma {:induction false} OneRequest(log: seq<Entry>, p: Provider, m: nat)
    ensures Straddled(log, p, Requests, m) <= Straddlers(log, m)
  {
    if log != [] {
      OneRequest(log[..|log| - 1], p, m);
    }
  }

  /** So a minute holds at most one request too many. */
  lemma RequestBound(limits: Limits, built: Time, started: Time, steps: seq<Step>, p: Provider, m: nat)
    requires limits.Valid() && built <= started && Known(p)
    requires Exec(limits, built, started, steps).Some?
    ensures Recorded(Exec(limits, built, started, steps).value.log, p, Requests, m) <= limits.Of(p).rpm + 1
  {
    MinuteBound(limits, built, started, steps, p, Requests, m);
    OneRequest(Exec(limits, built, started, steps).value.log, p, m);
  }

  /** The back end's own counter is what the log says for its minute. */
  lemma BackendBound(limits: Limits, built: Time, started: Time, steps: seq<Step>, p: Provider, k: Kind)
    requires limits.Valid() && built <= started && Known(p)
    requires Exec(limits, built, started, steps).Some?
    ensures var s := Exec(limits, built, started, steps).value;
            && Used(s, p, k) == Recorded(s.log, p, k, s.book.minute)
            && 0 <= Used(s, p, k) <= Cap(limits.Of(p), k) + Straddled(s.log, p, k, s.book.minute)
  {
    var s := Exec(limits, built, started, steps).value;
    assert Column(s, Cap(limits.Of(p), k), p, k);
    assert MinuteBounded(s.log, Cap(limits.Of(p), k), p, k, s.book.minute);
  }

  // ---------------------------------------------------------------- the bound is reached

  lemma ExecThen(limits: Limits, built: Time, started: Time, steps: seq<Step>, step: Step)
    requires limits.Valid() && built <= started
    requires Exec(limits, built, started, steps).Some? && Enabled(Exec(limits, built, started, steps).value, step)
    ensures Exec(limits, built, started, steps + [step]) == Some(Next(Exec(limits, built, started, steps).value, step))
  {
    var all := steps + [step];
    assert all[..|all| - 1] == steps;
  }

  /** A request for the whole budget, checked one second before the minute ends and recorded as the next one starts. */
  function LateRequest(tpm: nat): seq<Step> {
    [Take(Groq, tpm), AskShared, AskLocal(59 * SECOND), Tick(MINUTE), Record]
  }

  /** The displayed check resets the tracker, and the tracker's fresh budget is then offered in full. */
  function DoubleSpend(tpm: nat): seq<Step> {
    LateRequest(tpm) + [ReportShared] + [ReportLocal(MINUTE)] + [Take(Groq, tpm)]
    + [AskShared] + [AskLocal(MINUTE)] + [Record]
  }

  /** Both sides have the whole budget left. */
  function FullGrant(limits: Limits, t: Time): Grant {
    Grant(Usage(limits.groq.tpm, limits.groq.rpm), Usage(limits.groq.tpm, limits.groq.rpm), t, t, t)
  }

  lemma LateGrant(limits: Limits)
    requires limits.Valid() && limits.groq.rpm > 0
    ensures var t, tpm := 59 * SECOND, limits.groq.tpm;
            var r := Exec(limits, t, t, [Take(Groq, tpm)] + [AskShared] + [AskLocal(t)]);
            r == Some(Init(limits, t, t).(phase := Granted(Groq, tpm, FullGrant(limits, t))))
  {
    var t, tpm := 59 * SECOND, limits.groq.tpm;
    ExecThen(limits, t, t, [], Take(Groq, tpm));
    assert [] + [Take(Groq, tpm)] == [Take(Groq, tpm)];
    ExecThen(limits, t, t, [Take(Groq, tpm)], AskShared);
    ExecThen(limits, t, t, [Take(Groq, tpm)] + [AskShared], AskLocal(t));
  }

  lemma AfterLateRequest(limits: Limits)
    requires limits.Valid() && limits.groq.rpm > 0
    ensures var t, tpm := 59 * SECOND, limits.groq.tpm;
            var r := Exec(limits, t, t, LateRequest(tpm));
            && r.Some? && r.value.phase == Reporting(Groq) && r.value.now == MINUTE && Budgeted(limits, r.value)
            && r.value.book.minute == 1 && r.value.local.minute == 0
            && r.value.book.Used(Groq) == Usage(tpm, 1)
            && r.value.log == [Entry(Groq, tpm, FullGrant(limits, t), MINUTE)]
  {
    var t, tpm := 59 * SECOND, limits.groq.tpm;
    var granted := [Take(Groq, tpm)] + [AskShared] + [AskLocal(t)];
    LateGrant(limits);
    ExecThen(limits, t, t, granted, Tick(MINUTE));
    ExecThen(limits, t, t, granted + [Tick(MINUTE)], Record);
    assert LateRequest(tpm) == granted + [Tick(MINUTE)] + [Record];
  }

  /**
   Usage never above the budget is not what the code guarantees: for every token budget, with any request budget under
   which a request can be granted at all, there is a run whose second minute records twice the tokens, the most that
   `MinuteBound` allows.
   */
  lemma BoundIsReached(limits: Limits)
    requires limits.Valid() && limits.groq.rpm > 0
    ensures var t, tpm := 59 * SECOND, limits.groq.tpm;
            var r := Exec(limits, t, t, DoubleSpend(tpm));
            r.Some? && Recorded(r.value.log, Groq, Tokens, 1) == 2 * tpm
  {
    var t, tpm := 59 * SECOND, limits.groq.tpm;
    var late := LateRequest(tpm);
    AfterLateRequest(limits);
    hide LateRequest, Inv, Exec;
    AskingAgain(limits, t, late);
    SecondSpend(limits, t, late + [ReportShared] + [ReportLocal(MINUTE)] + [Take(Groq, tpm)]);
  }

  /** The displayed check after the late record, and the next request. */
  lemma AskingAgain(limits: Limits, t: Time, steps: seq<Step>)
    requires limits.Valid() && Exec(limits, t, t, steps).Some?
    requires var s := Exec(limits, t, t, steps).value;
             s.phase == Reporting(Groq) && s.now == MINUTE && s.book.minute == 1 && s.local.minute == 0
    ensures var s := Exec(limits, t, t, steps).value;
            Exec(limits, t, t, steps + [ReportShared] + [ReportLocal(MINUTE)] + [Take(Groq, limits.groq.tpm)])
            == Some(s.(local := s.local.Reset(1), phase := Asking(Groq, limits.groq.tpm)))
  {
    hide Inv, Exec;
    ExecThen(limits, t, t, steps, ReportShared);
    ExecThen(limits, t, t, steps + [ReportShared], ReportLocal(MINUTE));
    ExecThen(limits, t, t, steps + [ReportShared] + [ReportLocal(MINUTE)], Take(Groq, limits.groq.tpm));
  }

  lemma SecondSpend(limits: Limits, t: Time, steps: seq<Step>)
    requires limits.Valid() && Exec(limits, t, t, steps).Some? && limits.groq.rpm > 0
    requires var s := Exec(limits, t, t, steps).value;
             && s.phase == Asking(Groq, limits.groq.tpm) && s.now == MINUTE && Budgeted(limits, s)
             && s.book.minute == 1 == s.local.minute
             && s.book.Used(Groq) == Usage(limits.groq.tpm, 1) && s.local.Used(Groq) == NO_USAGE
             && |s.log| == 1 && Recorded(s.log, Groq, Tokens, 1) == limits.groq.tpm
    ensures var r := Exec(limits, t, t, steps + [AskShared] + [AskLocal(MINUTE)] + [Record]);
            r.Some? && Recorded(r.value.log, Groq, Tokens, 1) == 2 * limits.groq.tpm
  {
    ExecThen(limits, t, t, steps, AskShared);
    ExecThen(limits, t, t, steps + [AskShared], AskLocal(MINUTE));
    ExecThen(limits, t, t, steps + [AskShared] + [AskLocal(MINUTE)], Record);
    var s := Exec(limits, t, t, steps).value;
    var e := Entry(Groq, limits.groq.tpm,
                   Grant(Usage(0, limits.groq.rpm - 1), Usage(limits.groq.tpm, limits.groq.rpm), MINUTE, MINUTE, MINUTE),
                   MINUTE);
    Appended(s.log, e, Groq, Tokens, 1);
  }

  // ---------------------------------------------------------------- when the wait can end

  /** Some run grants a request of this size. */
  ghost predicate EverGranted(limits: Limits, p: Provider, tokens: nat)
    requires limits.Valid()
  {
    exists steps: seq<Step> :: GrantedAfter(limits, p, tokens, steps)
  }

  ghost predicate GrantedAfter(limits: Limits, p: Provider, tokens: nat, steps: seq<Step>)
    requires limits.Valid()
  {
    && Exec(limits, 0, 0, steps).Some?
    && var phase := Exec(limits, 0, 0, steps).value.phase;
       phase.Granted? && phase.provider == p && phase.tokens == tokens
  }

  /** In the middle of the minute after `t`. */
  function NextMinute(t: Time): Time {
    (Minute(t) + 1) * MINUTE + 30 * SECOND
  }

  lemma NextMinuteIsNext(t: Time)
    ensures NextMinute(t) >= t && Minute(NextMinute(t)) == Minute(t) + 1 && !InTransition(NextMinute(t))
  {
  }

  /** A request that fits the budgets can be granted in the next minute, from wherever the wait is. */
  lemma WaitCanEnd(limits: Limits, built: Time, started: Time, steps: seq<Step>)
    requires limits.Valid() && built <= started && Exec(limits, built, started, steps).Some?
    requires var s := Exec(limits, built, started, steps).value;
             && s.phase.Asking? && Known(s.phase.provider)
             && s.phase.tokens <= limits.Of(s.phase.provider).tpm && limits.Of(s.phase.provider).rpm >= 1
    ensures var s := Exec(limits, built, started, steps).value;
            var t := NextMinute(s.now);
            var r := Exec(limits, built, started, steps + [Tick(t)] + [AskShared] + [AskLocal(t)]);
            r.Some? && r.value.phase.Granted? && r.value.phase.provider == s.phase.provider && r.value.phase.tokens == s.phase.tokens
  {
    var s := Exec(limits, built, started, steps).value;
    var t := NextMinute(s.now);
    NextMinuteIsNext(s.now);
    assert Clocked(s) && Budgeted(limits, s);
    hide Exec, Inv, Clocked, NextMinute, Minute, InTransition;
    ExecThen(limits, built, started, steps, Tick(t));
    ExecThen(limits, built, started, steps + [Tick(t)], AskShared);
    ExecThen(limits, built, started, steps + [Tick(t)] + [AskShared], AskLocal(t));
    FreshMinute(limits, s, t);
  }

  /** In a new minute both sides have the whole budget left. */
  lemma FreshMinute(limits: Limits, s: State, t: Time)
    requires Clocked(s) && Budgeted(limits, s) && Minute(t) > Minute(s.now)
    ensures forall p | Known(p) ::
              && s.book.At(t).Left(p) == Usage(Floor(limits.Of(p).tpm), Floor(limits.Of(p).rpm))
              && s.local.Sync(t).Left(p) == Usage(limits.Of(p).tpm, limits.Of(p).rpm)
  {
  }

  /** A request can be granted if and only if its tokens fit the token budget and the request budget is not zero. */
  lemma EverGrantedIff(limits: Limits, p: Provider, tokens: nat)
    requires limits.Valid() && Known(p)
    ensures EverGranted(limits, p, tokens) <==> tokens <= limits.Of(p).tpm && limits.Of(p).rpm >= 1
  {
    if tokens <= limits.Of(p).tpm && limits.Of(p).rpm >= 1 {
      Asked(limits, p, tokens);
      var t := NextMinute(0);
      WaitCanEnd(limits, 0, 0, [Take(p, tokens)]);
      assert GrantedAfter(limits, p, tokens, [Take(p, tokens)] + [Tick(t)] + [AskShared] + [AskLocal(t)]);
    } else {
      forall steps: seq<Step>
        ensures !GrantedAfter(limits, p, tokens, steps)
      {
        if GrantedAfter(limits, p, tokens, steps) {
          GrantedIsWithin(limits, Exec(limits, 0, 0, steps).value);
        }
      }
    }
  }

  lemma GrantedIsWithin(limits: Limits, s: State)
    requires Inv(limits, s) && s.phase.Granted? && Known(s.phase.provider)
    ensures s.phase.tokens <= limits.Of(s.phase.provider).tpm && limits.Of(s.phase.provider).rpm >= 1
  {
    var p := s.phase.provider;
    assert Column(s, Cap(limits.Of(p), Tokens), p, Tokens) && Column(s, Cap(limits.Of(p), Requests), p, Requests);
  }

  lemma Asked(limits: Limits, p: Provider, tokens: nat)
    requires limits.Valid()
    ensures var r := Exec(limits, 0, 0, [Take(p, tokens)]);
            r.Some? && r.value.phase == Asking(p, tokens) && r.value.now == 0
  {
    ExecThen(limits, 0, 0, [], Take(p, tokens));
    assert [] + [Take(p, tokens)] == [Take(p, tokens)];
  }
}
