/**
 What the tracker's own count is good for. Here the back end is anything at all: other processes record and reset as they
 please, or the manager cannot be reached and the client answers with its full budget. Away from a minute boundary one
 process still keeps within its budget, because it never takes more than its tracker has left.
 */
module BudgetOwn {
  import opened Nodes
  import opened RateLimit
  import opened ConsumptionTracker
  import opened Budget
  import BudgetBound

  /** A step of this process, or a change of the back end from elsewhere. */
  datatype Event = Own(step: Step) | Elsewhere(book: Book<Provider>)

  predicate CanHappen(s: State, e: Event) {
    e.Own? ==> Enabled(s, e.step)
  }

  function Happens(s: State, e: Event): State
    requires CanHappen(s, e)
  {
    match e
    case Own(step) => Next(s, step)
    case Elsewhere(book) => s.(book := book)
  }

  // ---------------------------------------------------------------- what was granted

  /** What `p` was granted on a look at the tracker in minute `m`. */
  function GrantedIn(log: seq<Entry>, p: Provider, k: Kind, m: nat): nat {
    if log == [] then 0
    else
      var e := log[|log| - 1];
      GrantedIn(log[..|log| - 1], p, k, m) + if e.provider == p && Minute(e.grant.looked) == m then Amount(e, k) else 0
  }

  /** What `p` was granted ever. */
  function GrantedEver(log: seq<Entry>, p: Provider, k: Kind): nat {
    if log == [] then 0
    else
      var e := log[|log| - 1];
      GrantedEver(log[..|log| - 1], p, k) + if e.provider == p then Amount(e, k) else 0
  }

  /** None of these grants was made near a boundary. */
  ghost predicate Calm(log: seq<Entry>, p: Provider, m: nat) {
    forall e <- log :: e.provider == p && Minute(e.grant.looked) == m ==> !InTransition(e.grant.late)
  }

  lemma OneMore(log: seq<Entry>, e: Entry, p: Provider, k: Kind, m: nat)
    ensures GrantedIn(log + [e], p, k, m)
            == GrantedIn(log, p, k, m) + if e.provider == p && Minute(e.grant.looked) == m then Amount(e, k) else 0
    ensures GrantedEver(log + [e], p, k) == GrantedEver(log, p, k) + if e.provider == p then Amount(e, k) else 0
    ensures Calm(log + [e], p, m) ==> Calm(log, p, m)
    ensures Calm(log + [e], p, m) && e.provider == p && Minute(e.grant.looked) == m ==> !InTransition(e.grant.late)
  {
    var all := log + [e];
    assert all[..|all| - 1] == log && e in all && forall f <- log :: f in all;
  }

  lemma {:induction false} NothingLater(log: seq<Entry>, p: Provider, k: Kind, m: nat)
    requires forall e <- log :: Minute(e.grant.looked) < m
    ensures GrantedIn(log, p, k, m) == 0
  {
    if log != [] {
      assert log[|log| - 1] in log;
      NothingLater(log[..|log| - 1], p, k, m);
    }
  }

  // ---------------------------------------------------------------- kept by every event

  ghost predicate Timed(limits: Limits, s: State) {
    && s.local.groq == limits.groq && s.local.openai == limits.openai
    && s.local.minute <= Minute(s.now)
    && (forall e <- s.log :: Minute(e.grant.looked) <= s.local.minute)
    && (s.phase.Granted? ==> Minute(s.phase.grant.looked) <= s.local.minute)
  }

  /** The tracker counts at least what was granted in its minute, and a grant away from a boundary fits beside it. */
  ghost predicate Column(s: State, cap: int, p: Provider, k: Kind) {
    && cap >= 0
    && Part(s.local.Used(p), k) >= GrantedIn(s.log, p, k, s.local.minute)
    && Part(s.local.Total(p), k) == GrantedEver(s.log, p, k)
    && (forall m :: Calm(s.log, p, m) ==> GrantedIn(s.log, p, k, m) <= cap)
    && (s.phase.Granted? && s.phase.provider == p && !InTransition(s.phase.grant.late) ==>
          GrantedIn(s.log, p, k, Minute(s.phase.grant.looked)) + Need(s.phase.tokens, k) <= cap)
  }

  ghost predicate Inv(limits: Limits, s: State) {
    Timed(limits, s) && forall p, k :: Column(s, Cap(limits.Of(p), k), p, k)
  }

  lemma InitInv(limits: Limits, built: Time, started: Time)
    requires limits.Valid() && built <= started
    ensures Inv(limits, Init(limits, built, started))
  {
  }

  lemma TimedKept(limits: Limits, s: State, e: Event)
    requires Timed(limits, s) && CanHappen(s, e)
    ensures Timed(limits, Happens(s, e))
  {
    BudgetBound.MinuteMonotone(s.now, Happens(s, e).now);
  }

  /** The tracker stays as it is, or starts a new minute. */
  lemma ColumnReset(s: State, cap: int, p: Provider, k: Kind, s': State)
    requires Column(s, cap, p, k) && s'.log == s.log && s'.local.total == s.local.total
    requires s'.local == s.local
             || (s'.local.minute > s.local.minute && (s'.local.Used(p) == s.local.Used(p) || s'.local.Used(p) == NO_USAGE))
    requires forall e <- s.log :: Minute(e.grant.looked) <= s.local.minute
    requires s'.phase == s.phase || !s'.phase.Granted?
    ensures Column(s', cap, p, k)
  {
    if s'.local.minute > s.local.minute {
      NothingLater(s.log, p, k, s'.local.minute);
    }
  }

  lemma ColumnGrant(limits: Limits, s: State, p: Provider, k: Kind, late: Time)
    requires Timed(limits, s) && Column(s, Cap(limits.Of(p), k), p, k) && s.phase.Half? && late >= s.now
    ensures Column(Next(s, AskLocal(late)), Cap(limits.Of(p), k), p, k)
  {
    var s' := Next(s, AskLocal(late));
    ColumnReset(s, Cap(limits.Of(p), k), p, k, s'.(phase := Idle));
    if s'.phase.Granted? && s.phase.provider == p && !InTransition(late) {
      OfferIs(Part(s.phase.shared, k), Part(s'.local.Left(p), k), false);
      assert Need(s.phase.tokens, k) <= Offer(Part(s.phase.shared, k), Part(s'.local.Left(p), k), false);
    }
  }

  /** The tracker's books before and after one record. */
  lemma RecordedLocally(s: State, p: Provider, k: Kind)
    requires s.phase.Granted?
    ensures var s', e := Next(s, Record), BudgetBound.ThisRecord(s);
            var added := if e.provider == p then Amount(e, k) else 0;
            && s'.log == s.log + [e] && s'.local.minute == s.local.minute && !s'.phase.Granted?
            && Part(s'.local.Used(p), k) == Part(s.local.Used(p), k) + added
            && Part(s'.local.Total(p), k) == Part(s.local.Total(p), k) + added
  {
  }

  lemma ColumnRecord(limits: Limits, s: State, p: Provider, k: Kind)
    requires Timed(limits, s) && Column(s, Cap(limits.Of(p), k), p, k) && s.phase.Granted?
    ensures Column(Next(s, Record), Cap(limits.Of(p), k), p, k)
  {
    hide Next, Calm, GrantedIn, GrantedEver;
    var s' := Next(s, Record);
    var e := BudgetBound.ThisRecord(s);
    RecordedLocally(s, p, k);
    OneMore(s.log, e, p, k, s.local.minute);
    forall m | Calm(s'.log, p, m)
      ensures GrantedIn(s'.log, p, k, m) <= Cap(limits.Of(p), k)
    {
      OneMore(s.log, e, p, k, m);
    }
  }

  lemma ColumnKept(limits: Limits, s: State, e: Event, p: Provider, k: Kind)
    requires Timed(limits, s) && Column(s, Cap(limits.Of(p), k), p, k) && CanHappen(s, e)
    ensures Column(Happens(s, e), Cap(limits.Of(p), k), p, k)
  {
    if e.Own? && e.step.AskLocal? {
      ColumnGrant(limits, s, p, k, e.step.late);
    } else if e.Own? && e.step.Record? {
      ColumnRecord(limits, s, p, k);
    } else {
      hide Column;
      ColumnReset(s, Cap(limits.Of(p), k), p, k, Happens(s, e));
    }
  }

  lemma HappensInv(limits: Limits, s: State, e: Event)
    requires Inv(limits, s) && CanHappen(s, e)
    ensures Inv(limits, Happens(s, e))
  {
    TimedKept(limits, s, e);
    hide Timed, Column;
    forall p, k
      ensures Column(Happens(s, e), Cap(limits.Of(p), k), p, k)
    {
      ColumnKept(limits, s, e, p, k);
    }
  }

  ghost function Exec(limits: Limits, built: Time, started: Time, events: seq<Event>): (r: Option<State>)
    requires limits.Valid() && built <= started
    ensures r.Some? ==> Inv(limits, r.value)
  {
    if events == [] then
      InitInv(limits, built, started);
      Some(Init(limits, built, started))
    else
      var before := Exec(limits, built, started, events[..|events| - 1]);
      var e := events[|events| - 1];
      if before.Some? && CanHappen(before.value, e) then
        HappensInv(limits, before.value, e);
        Some(Happens(before.value, e))
      else None
  }

  // ---------------------------------------------------------------- the bound

  /**
   Whatever the back end answers at any time: in a minute in which no grant was made near a boundary, a process is granted
   no more than its budget, of any provider.
   */
  lemma OwnBound(limits: Limits, built: Time, started: Time, events: seq<Event>, p: Provider, k: Kind, m: nat)
    requires limits.Valid() && built <= started && Exec(limits, built, started, events).Some?
    requires Calm(Exec(limits, built, started, events).value.log, p, m)
    ensures GrantedIn(Exec(limits, built, started, events).value.log, p, k, m) <= Cap(limits.Of(p), k)
  {
    assert Column(Exec(limits, built, started, events).value, Cap(limits.Of(p), k), p, k);
  }

  lemma {:induction false} RecordedWithin(log: seq<Entry>, p: Provider, k: Kind, m: nat)
    requires forall e <- log :: Minute(e.at) == m ==> Minute(e.grant.looked) == m
    ensures Recorded(log, p, k, m) <= GrantedIn(log, p, k, m)
  {
    if log != [] {
      assert log[|log| - 1] in log && forall e <- log[..|log| - 1] :: e in log;
      RecordedWithin(log[..|log| - 1], p, k, m);
    }
  }

  /** Nor does it record more, if it records in the minute in which it was granted. */
  lemma OwnUsageBound(limits: Limits, built: Time, started: Time, events: seq<Event>, p: Provider, k: Kind, m: nat)
    requires limits.Valid() && built <= started && Exec(limits, built, started, events).Some?
    requires var log := Exec(limits, built, started, events).value.log;
             Calm(log, p, m) && forall e <- log :: Minute(e.at) == m ==> Minute(e.grant.looked) == m
    ensures Recorded(Exec(limits, built, started, events).value.log, p, k, m) <= Cap(limits.Of(p), k)
  {
    OwnBound(limits, built, started, events, p, k, m);
    RecordedWithin(Exec(limits, built, started, events).value.log, p, k, m);
  }

  /** The totals are what was ever recorded, across all minutes and resets. */
  lemma TotalsAreAll(limits: Limits, built: Time, started: Time, events: seq<Event>, p: Provider)
    requires limits.Valid() && built <= started && Exec(limits, built, started, events).Some?
    ensures var s := Exec(limits, built, started, events).value;
            s.local.Total(p) == Usage(GrantedEver(s.log, p, Tokens), GrantedEver(s.log, p, Requests))
  {
    var s := Exec(limits, built, started, events).value;
    assert Column(s, Cap(limits.Of(p), Tokens), p, Tokens) && Column(s, Cap(limits.Of(p), Requests), p, Requests);
  }
}
