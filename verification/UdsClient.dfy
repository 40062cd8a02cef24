/** The client of the manager (`rate_limit/backends/uds/client.go`), and what a connected client can rely on. */
module UdsClient {
  import opened Nodes
  import opened RateLimit
  import opened Text
  import opened Protocol
  import opened UdsManager

  /** How the socket behaves during one command: the first write, a reconnect, the second write, and reading the reply. */
  datatype Link = Link(writes: bool, dials: bool, rewrites: bool, answers: bool)

  /** What the client makes of one command, and what becomes of the manager's books. */
  function Exchange(book: Book<string>, now: Time, cmd: Command): (Book<string>, string) {
    var (book', reply) := Handle(book, now, Spell(cmd));
    (book', TrimSpace(reply + "\n"))
  }

  class Client {
    var connected: bool
    const budgets: map<Provider, Limit>
    const manager: Manager

    constructor (manager: Manager, reachable: bool)
      ensures this.manager == manager && connected == reachable
      ensures budgets == map[Groq := GROQ_LIMIT, OpenAI := OPENAI_LIMIT]
    {
      this.manager := manager;
      connected := reachable;
      budgets := map[Groq := GROQ_LIMIT, OpenAI := OPENAI_LIMIT];
    }

    /**
     A command is carried out once if it was written, by the first write or by the second one after a reconnect, even when
     its reply is lost; a client that was not connected never tries.
     */
    method SendCommand(command: Command, link: Link, now: Time) returns (reply: Option<string>)
      modifies this`connected, manager
      ensures connected == (old(connected) && (link.writes || link.dials))
      ensures var written := old(connected) && (link.writes || (link.dials && link.rewrites));
              && (!written ==> reply == None && manager.View() == old(manager.View()))
              && (written ==> manager.View() == Handle(old(manager.View()), now, Spell(command)).0)
              && (written && !link.answers ==> reply == None)
              && (written && link.answers ==>
                    reply == Some(TrimSpace(Handle(old(manager.View()), now, Spell(command)).1 + "\n")))
    {
      if !connected {
        return None;
      }
      if !link.writes {
        connected := false;
        if !link.dials {
          return None;
        }
        connected := true;
        if !link.rewrites {
          return None;
        }
      }
      var response := manager.HandleCommand(Spell(command), now);
      if !link.answers {
        return None;
      }
      reply := Some(TrimSpace(response + "\n"));
    }

    /** Without an answer it can read, the client offers its whole default budget. */
    method BudgetAvailable(provider: Provider, link: Link, now: Time) returns (tokens: int, requests: int)
      modifies this`connected, manager
      ensures var written := old(connected) && (link.writes || (link.dials && link.rewrites));
              var left := manager.View().Left(ProviderKey(provider));
              && manager.View() == (if written then old(manager.View()).At(now) else old(manager.View()))
              && (written && link.answers && Fits(left.tokens) && Fits(left.requests) ==>
                    tokens == left.tokens && requests == left.requests)
              && (!(written && link.answers && Fits(left.tokens) && Fits(left.requests)) ==>
                    && (provider in budgets ==> tokens == budgets[provider].tpm && requests == budgets[provider].rpm)
                    && (provider !in budgets ==> tokens == 0 == requests))
    {
      var cmd := Budget(ProviderKey(provider));
      ParseSpell(cmd);
      ReadReply(manager.View(), now, cmd.key);
      var response := SendCommand(cmd, link, now);
      var answer := if response.None? then None else ReadBudget(response.value);
      match answer
      case None =>
        var budget := if provider in budgets then budgets[provider] else NO_LIMIT;
        tokens, requests := budget.tpm, budget.rpm;
      case Some(usage) => tokens, requests := usage.tokens, usage.requests;
    }

    /** The manager's answer is exact to the millisecond; without one the client reckons by itself. */
    method TimeUntilReset(link: Link, now: Time) returns (duration: nat)
      modifies this`connected, manager
      ensures manager.View() == old(manager.View())
      ensures duration <= UntilReset(now) < duration + MILLISECOND
      ensures !(old(connected) && link.answers && (link.writes || (link.dials && link.rewrites))) ==> duration == UntilReset(now)
    {
      ReadTime(manager.View(), now);
      var response := SendCommand(Protocol.TimeUntilReset, link, now);
      duration := UntilReset(now);
      if response.Some? {
        var ms := Atoi(response.value);
        if ms.Some? {
          duration := ms.value * MILLISECOND;
        }
      }
    }

    /** No error is reported when the manager refuses the numbers. */
    method RecordConsumption(provider: Provider, tokens: int, requests: int, link: Link, now: Time) returns (ok: bool)
      modifies this`connected, manager
      ensures ok == (old(connected) && (link.writes || (link.dials && link.rewrites)) && link.answers)
      ensures manager.View() == if old(connected) && (link.writes || (link.dials && link.rewrites)) && Fits(tokens) && Fits(requests)
                                then old(manager.View()).At(now).Consume(ProviderKey(provider), tokens, requests)
                                else old(manager.View())
    {
      var cmd := Consume(ProviderKey(provider), tokens, requests);
      ParseSpell(cmd);
      var response := SendCommand(cmd, link, now);
      ok := response.Some?;
    }

    method SetBudgetForTests(provider: Provider, tokens: int, requests: int, link: Link, now: Time) returns (ok: bool)
      modifies this`connected, manager
      ensures ok == (old(connected) && (link.writes || (link.dials && link.rewrites)) && link.answers)
      ensures manager.View() == if old(connected) && (link.writes || (link.dials && link.rewrites)) && Fits(tokens) && Fits(requests)
                                then old(manager.View()).WithBudget(ProviderKey(provider), tokens, requests)
                                else old(manager.View())
    {
      var cmd := SetBudget(ProviderKey(provider), tokens, requests);
      ParseSpell(cmd);
      var response := SendCommand(cmd, link, now);
      ok := response.Some?;
    }
  }

  // ---------------------------------------------------------------- the manager does what the memory back end does

  datatype Call =
    | AskBudget(provider: Provider, now: Time)
    | Use(provider: Provider, tokens: int, requests: int, now: Time)
    | Set(provider: Provider, tokens: int, requests: int, now: Time)

  function OnMemory(book: Book<Provider>, call: Call): (Book<Provider>, Option<Usage>) {
    match call
    case AskBudget(p, now) => (book.At(now), Some(book.At(now).Left(p)))
    case Use(p, tokens, requests, now) => (book.At(now).Consume(p, tokens, requests), None)
    case Set(p, tokens, requests, _) => (book.WithBudget(p, tokens, requests), None)
  }

  function AsCommand(call: Call): Command {
    match call
    case AskBudget(p, _) => Budget(ProviderKey(p))
    case Use(p, tokens, requests, _) => Consume(ProviderKey(p), tokens, requests)
    case Set(p, tokens, requests, _) => SetBudget(ProviderKey(p), tokens, requests)
  }

  /** As text to the manager and back. */
  function OnWire(book: Book<string>, call: Call): (Book<string>, Option<Usage>) {
    var (book', reply) := Exchange(book, call.now, AsCommand(call));
    (book', if call.AskBudget? then ReadBudget(reply) else None)
  }

  ghost predicate Mirrors(memory: Book<Provider>, wire: Book<string>) {
    && memory.minute == wire.minute
    && forall p | Known(p) ::
         memory.Used(p) == wire.Used(ProviderKey(p)) && memory.Budget(p) == wire.Budget(ProviderKey(p))
  }

  /** A call about a named provider whose numbers, and whose answer, fit 64 bits. */
  ghost predicate Representable(book: Book<Provider>, call: Call) {
    && Known(call.provider)
    && (!call.AskBudget? ==> Fits(call.tokens) && Fits(call.requests))
    && (call.AskBudget? ==> Fits(book.At(call.now).Left(call.provider).tokens) && Fits(book.At(call.now).Left(call.provider).requests))
  }

  lemma KeysDiffer(p: Provider)
    requires Known(p)
    ensures forall q | Known(q) :: ProviderKey(p) == ProviderKey(q) <==> p == q
  {
    assert ProviderKey(Groq)[0] != ProviderKey(OpenAI)[0];
  }

  lemma MirrorsBooks(memory: Book<Provider>, wire: Book<string>, p: Provider, tokens: int, requests: int, now: Time)
    requires Mirrors(memory, wire) && Known(p)
    ensures Mirrors(memory.At(now), wire.At(now))
    ensures Mirrors(memory.Consume(p, tokens, requests), wire.Consume(ProviderKey(p), tokens, requests))
    ensures Mirrors(memory.WithBudget(p, tokens, requests), wire.WithBudget(ProviderKey(p), tokens, requests))
  {
    KeysDiffer(p);
    hide ProviderKey;
  }

  lemma SameLeft(memory: Book<Provider>, wire: Book<string>, p: Provider)
    requires Mirrors(memory, wire) && Known(p)
    ensures wire.Left(ProviderKey(p)) == memory.Left(p)
  {
  }

  lemma AskMirrors(memory: Book<Provider>, wire: Book<string>, call: Call)
    requires Mirrors(memory, wire) && Representable(memory, call) && call.AskBudget?
    ensures OnWire(wire, call).1 == OnMemory(memory, call).1
    ensures Mirrors(OnMemory(memory, call).0, OnWire(wire, call).0)
  {
    var p := call.provider;
    ParseSpell(AsCommand(call));
    ReadReply(wire, call.now, ProviderKey(p));
    MirrorsBooks(memory, wire, p, 0, 0, call.now);
    SameLeft(memory.At(call.now), wire.At(call.now), p);
    hide Mirrors, Parse, Spell, Fits, Known, ReadBudget, TrimSpace, Format, Join, ProviderKey;
  }

  lemma ChangeMirrors(memory: Book<Provider>, wire: Book<string>, call: Call)
    requires Mirrors(memory, wire) && Representable(memory, call) && !call.AskBudget?
    ensures OnWire(wire, call).1 == OnMemory(memory, call).1
    ensures Mirrors(OnMemory(memory, call).0, OnWire(wire, call).0)
  {
    var p := call.provider;
    ParseSpell(AsCommand(call));
    hide Mirrors, Parse, Spell, Fits, Known, ReadBudget, TrimSpace;
    MirrorsBooks(memory, wire, p, call.tokens, call.requests, call.now);
    MirrorsBooks(memory.At(call.now), wire.At(call.now), p, call.tokens, call.requests, call.now);
  }

  lemma MirrorsStep(memory: Book<Provider>, wire: Book<string>, call: Call)
    requires Mirrors(memory, wire) && Representable(memory, call)
    ensures OnWire(wire, call).1 == OnMemory(memory, call).1
    ensures Mirrors(OnMemory(memory, call).0, OnWire(wire, call).0)
  {
    hide Mirrors, Representable, OnWire, OnMemory;
    if call.AskBudget? {
      AskMirrors(memory, wire, call);
    } else {
      ChangeMirrors(memory, wire, call);
    }
  }

  function MemoryAnswers(book: Book<Provider>, calls: seq<Call>): seq<Option<Usage>>
    decreases |calls|
  {
    if calls == [] then []
    else [OnMemory(book, calls[0]).1] + MemoryAnswers(OnMemory(book, calls[0]).0, calls[1..])
  }

  function WireAnswers(book: Book<string>, calls: seq<Call>): seq<Option<Usage>>
    decreases |calls|
  {
    if calls == [] then []
    else [OnWire(book, calls[0]).1] + WireAnswers(OnWire(book, calls[0]).0, calls[1..])
  }

  ghost predicate AllRepresentable(book: Book<Provider>, calls: seq<Call>)
    decreases |calls|
  {
    calls == [] || (Representable(book, calls[0]) && AllRepresentable(OnMemory(book, calls[0]).0, calls[1..]))
  }

  /** Any conversation of a connected client gets the answers the memory back end gives at the same times. */
  lemma {:induction false} SameAnswers(memory: Book<Provider>, wire: Book<string>, calls: seq<Call>)
    requires Mirrors(memory, wire) && AllRepresentable(memory, calls)
    ensures WireAnswers(wire, calls) == MemoryAnswers(memory, calls)
    decreases |calls|
  {
    if calls != [] {
      MirrorsStep(memory, wire, calls[0]);
      SameAnswers(OnMemory(memory, calls[0]).0, OnWire(wire, calls[0]).0, calls[1..]);
    }
  }

  /** A fresh manager mirrors a fresh memory back end. */
  lemma FreshMirrors(now: Time)
    ensures Mirrors(NewBook(now), NewManagerBook(now))
  {
  }

  /** So does a client of a fresh manager, for a memory back end built at the same time. */
  lemma SameAnswersFromTheStart(now: Time, calls: seq<Call>)
    requires AllRepresentable(NewBook(now), calls)
    ensures WireAnswers(NewManagerBook(now), calls) == MemoryAnswers(NewBook(now), calls)
  {
    FreshMirrors(now);
    SameAnswers(NewBook(now), NewManagerBook(now), calls);
  }
}
