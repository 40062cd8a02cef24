/**
 One process and its memory back end: the launch loop checks the budget, waits or records, and reports, while the minute
 timer cycles the tracker at any moment. A check reads the back end first and the tracker later, so a boundary can fall
 between any two steps.
 */
module Budget {
  import opened Nodes
  import opened RateLimit
  import opened ConsumptionTracker

  /** A check: what the back end and the tracker had left, and the three looks at the clock. */
  datatype Grant = Grant(shared: Usage, local: Usage, asked: Time, looked: Time, late: Time)

  datatype Phase =
    | Idle
    | Asking(provider: Provider, tokens: nat)
    | Half(provider: Provider, tokens: nat, shared: Usage, asked: Time)      // the back end has answered
    | Granted(provider: Provider, tokens: nat, grant: Grant)
    | Reporting(provider: Provider)                                          // a check whose answer is only displayed
    | HalfReport(provider: Provider)

  /** One `RecordConsumption`, with the check that let it through. */
  datatype Entry = Entry(provider: Provider, tokens: nat, grant: Grant, at: Time)

  datatype State = State(book: Book<Provider>, local: Local, now: Time, phase: Phase, log: seq<Entry>)

  datatype Step =
    | Tick(to: Time) | Take(provider: Provider, tokens: nat) | AskShared | AskLocal(late: Time) | Record
    | ReportShared | ReportLocal(late: Time) | Cycle

  datatype Limits = Limits(groq: Limit, openai: Limit) {
    predicate Valid() {
      groq.tpm >= 0 && groq.rpm >= 0 && openai.tpm >= 0 && openai.rpm >= 0
    }

    function Of(p: Provider): Limit {
      if p.OpenAI? then openai else groq
    }
  }

  /** Back end and tracker are built one after the other, then given the same budgets. */
  function Init(limits: Limits, built: Time, started: Time): State
    requires built <= started
  {
    State(NewBook(built).WithBudget(Groq, limits.groq.tpm, limits.groq.rpm).WithBudget(OpenAI, limits.openai.tpm, limits.openai.rpm),
          NewLocal(started).(groq := limits.groq, openai := limits.openai), started, Idle, [])
  }

  predicate Enabled(s: State, step: Step) {
    match step
    case Tick(to) => to >= s.now
    case Take(_, _) => s.phase.Idle?
    case AskShared => s.phase.Asking?
    case AskLocal(late) => s.phase.Half? && late >= s.now
    case Record => s.phase.Granted?
    case ReportShared => s.phase.Reporting?
    case ReportLocal(late) => s.phase.HalfReport? && late >= s.now
    case Cycle => true
  }

  /** The wait loop's test of one answer. */
  predicate Enough(shared: Usage, local: Usage, transition: bool, tokens: nat) {
    Offer(shared.tokens, local.tokens, transition) >= tokens && Offer(shared.requests, local.requests, transition) >= 1
  }

  function Next(s: State, step: Step): State
    requires Enabled(s, step)
  {
    match step
    case Tick(to) => s.(now := to)
    case Take(p, tokens) => s.(phase := Asking(p, tokens))
    case AskShared =>
      var Asking(p, tokens) := s.phase;
      var book := s.book.At(s.now);
      s.(book := book, phase := Half(p, tokens, book.Left(p), s.now))
    case AskLocal(late) =>
      var Half(p, tokens, shared, asked) := s.phase;
      var local := s.local.Sync(s.now);
      s.(local := local, now := late,
         phase := if Enough(shared, local.Left(p), InTransition(late), tokens)
                  then Granted(p, tokens, Grant(shared, local.Left(p), asked, s.now, late))
                  else Asking(p, tokens))
    case Record =>
      var Granted(p, tokens, grant) := s.phase;
      s.(local := s.local.Record(p, tokens), book := s.book.At(s.now).Consume(p, tokens, 1),
         log := s.log + [Entry(p, tokens, grant, s.now)], phase := Reporting(p))
    case ReportShared => s.(book := s.book.At(s.now), phase := HalfReport(s.phase.provider))
    case ReportLocal(late) => s.(local := s.local.Sync(s.now), now := late, phase := Idle)
    case Cycle => s.(local := s.local.Cycle(s.now))
  }

  // ---------------------------------------------------------------- what the log adds up to

  datatype Kind = Tokens | Requests

  function Part(u: Usage, k: Kind): int {
    if k.Tokens? then u.tokens else u.requests
  }

  function Cap(l: Limit, k: Kind): int {
    if k.Tokens? then l.tpm else l.rpm
  }

  /** What one call to the model costs: its tokens, and one request. */
  function Need(tokens: nat, k: Kind): nat {
    if k.Tokens? then tokens else 1
  }

  function Amount(e: Entry, k: Kind): nat {
    Need(e.tokens, k)
  }

  /** Checked in an earlier minute than the one it was recorded in. */
  predicate Straddles(e: Entry) {
    Minute(e.grant.asked) < Minute(e.at)
  }

  /** What `p` recorded in minute `m`. */
  function Recorded(log: seq<Entry>, p: Provider, k: Kind, m: nat): nat {
    if log == [] then 0
    else
      var e := log[|log| - 1];
      Recorded(log[..|log| - 1], p, k, m) + if e.provider == p && Minute(e.at) == m then Amount(e, k) else 0
  }

  /** The part of it whose check fell in an earlier minute. */
  function Straddled(log: seq<Entry>, p: Provider, k: Kind, m: nat): nat {
    if log == [] then 0
    else
      var e := log[|log| - 1];
      Straddled(log[..|log| - 1], p, k, m)
      + if e.provider == p && Minute(e.at) == m && Straddles(e) then Amount(e, k) else 0
  }

  /** How many records of minute `m`, of any provider, were checked in an earlier one. */
  function Straddlers(log: seq<Entry>, m: nat): nat {
    if log == [] then 0
    else
      var e := log[|log| - 1];
      Straddlers(log[..|log| - 1], m) + if Minute(e.at) == m && Straddles(e) then 1 else 0
  }

  /**
   Checked and recorded in one minute, and let through by the lenient branch: near a boundary, with nothing left at the back
   end and something left at the tracker.
   */
  predicate LetThrough(e: Entry, p: Provider, k: Kind, m: nat) {
    && e.provider == p && Minute(e.grant.asked) == Minute(e.at) == m
    && InTransition(e.grant.late) && Part(e.grant.shared, k) == 0 < Part(e.grant.local, k)
    && Amount(e, k) > 0
  }

  ghost predicate SomeLetThrough(log: seq<Entry>, p: Provider, k: Kind, m: nat) {
    exists e <- log :: LetThrough(e, p, k, m)
  }

  lemma Appended(log: seq<Entry>, e: Entry, p: Provider, k: Kind, m: nat)
    ensures Recorded(log + [e], p, k, m)
            == Recorded(log, p, k, m) + if e.provider == p && Minute(e.at) == m then Amount(e, k) else 0
    ensures Straddled(log + [e], p, k, m)
            == Straddled(log, p, k, m) + if e.provider == p && Minute(e.at) == m && Straddles(e) then Amount(e, k) else 0
    ensures Straddlers(log + [e], m) == Straddlers(log, m) + if Minute(e.at) == m && Straddles(e) then 1 else 0
    ensures SomeLetThrough(log + [e], p, k, m) <==> SomeLetThrough(log, p, k, m) || LetThrough(e, p, k, m)
  {
    var all := log + [e];
    assert all[..|all| - 1] == log;
    forall f
      ensures f in all <==> f in log || f == e
    {
    }
  }

  lemma {:induction false} NothingLater(log: seq<Entry>, p: Provider, k: Kind, m: nat)
    requires forall e <- log :: Minute(e.at) < m
    ensures Recorded(log, p, k, m) == Straddled(log, p, k, m) == Straddlers(log, m) == 0
    ensures !SomeLetThrough(log, p, k, m)
  {
    if log != [] {
      var e := log[|log| - 1];
      assert e in log;
      NothingLater(log[..|log| - 1], p, k, m);
    }
  }

  lemma {:induction false} StraddledWithin(log: seq<Entry>, p: Provider, k: Kind, m: nat)
    ensures Straddled(log, p, k, m) <= Recorded(log, p, k, m)
    ensures Straddlers(log, m) == 0 ==> Straddled(log, p, k, m) == 0
  {
    if log != [] {
      StraddledWithin(log[..|log| - 1], p, k, m);
    }
  }
}
