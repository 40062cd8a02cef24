/** The scheduler's own view of consumption (`turbo_run/runner_consumption_tracker.go`). */
module ConsumptionTracker {
  import opened Nodes
  import opened RateLimit
  import opened MemoryBackend

  /** The tracker's fields as a value. */
  datatype Local = Local(
    current: map<Provider, Usage>,
    minute: nat,
    total: map<Provider, Usage>,
    history: map<nat, map<Provider, Usage>>,
    groq: Limit,
    openai: Limit)
  {
    function Used(p: Provider): Usage {
      if p in current then current[p] else NO_USAGE
    }

    function Total(p: Provider): Usage {
      if p in total then total[p] else NO_USAGE
    }

    /** Every provider but OpenAI is measured against the Groq budget. */
    function Budget(p: Provider): Limit {
      if p.OpenAI? then openai else groq
    }

    /** May be negative. */
    function Left(p: Provider): Usage {
      Usage(Budget(p).tpm - Used(p).tokens, Budget(p).rpm - Used(p).requests)
    }

    /** The reset touches the two named providers only. */
    function Reset(newMinute: nat): Local {
      this.(minute := newMinute, current := current[Groq := NO_USAGE][OpenAI := NO_USAGE])
    }

    /** The lazy reset inside `BudgetAvailableForCycle`; nothing goes to the history. */
    function Sync(t: Time): Local {
      if minute == Minute(t) then this else Reset(Minute(t))
    }

    function Cycle(t: Time): Local {
      if minute == Minute(t) then this
      else this.(history := history[minute := map[Groq := Used(Groq), OpenAI := Used(OpenAI)]]).Reset(Minute(t))
    }

    function Record(p: Provider, tokens: int): Local {
      this.(current := current[p := Usage(Used(p).tokens + tokens, Used(p).requests + 1)],
            total := total[p := Usage(Total(p).tokens + tokens, Total(p).requests + 1)])
    }
  }

  function NewLocal(t: Time): Local {
    Local(map[], Minute(t), map[], map[], GROQ_LIMIT, OPENAI_LIMIT)
  }

  /** One column of what the tracker answers: the smaller of both views, except for the lenient cases. */
  function Offer(shared: int, local: int, transition: bool): int {
    if transition && shared == 0 && local > 0 then local
    else if transition && local == 0 && shared > 0 then shared
    else if local < shared then local else shared
  }

  /** The answer exceeds what the back end has left exactly in the first lenient case. */
  lemma OfferExceeds(shared: nat, local: int, transition: bool)
    ensures Offer(shared, local, transition) > shared <==> transition && shared == 0 && local > 0
    ensures Offer(shared, local, transition) <= if shared > local then shared else local
  {
  }

  /** The two cases in which one view is empty and the other is not, near a boundary. */
  predicate Disagree(shared: int, local: int, transition: bool) {
    transition && ((shared == 0 && local > 0) || (local == 0 && shared > 0))
  }

  /** The answer is one of the two views: the larger one when they disagree, and otherwise one that exceeds neither. */
  lemma OfferIs(shared: int, local: int, transition: bool)
    ensures var r := Offer(shared, local, transition);
            && (r == shared || r == local)
            && (Disagree(shared, local, transition) ==> r >= shared && r >= local)
            && (!Disagree(shared, local, transition) ==> r <= shared && r <= local)
  {
  }

  /**
   However often the timer fires in one minute, the minute before is saved once, with what the named providers had used, and
   the new one starts from nothing; the totals and the saved minutes stay.
   */
  lemma CycleSavesOnce(l: Local, now: Time, again: Time)
    requires Minute(now) == Minute(again)
    ensures var c := l.Cycle(now);
            && c.Cycle(again) == c
            && (l.minute == Minute(now) ==> c == l)
            && (l.minute != Minute(now) ==>
                  && c.history.Keys == l.history.Keys + {l.minute}
                  && c.history[l.minute] == map[Groq := l.Used(Groq), OpenAI := l.Used(OpenAI)]
                  && (forall m <- l.history | m != l.minute :: c.history[m] == l.history[m])
                  && c.Used(Groq) == NO_USAGE == c.Used(OpenAI) && c.total == l.total)
  {
  }

  class Tracker {
    var current: map<Provider, Usage>
    var currentMinute: nat
    var total: map<Provider, Usage>
    var history: map<nat, map<Provider, Usage>>
    var groqBudgetTokens: int
    var openaiBudgetTokens: int
    var groqBudgetRequests: int
    var openaiBudgetRequests: int
    const backend: Memory

    ghost function View(): Local
      reads this
    {
      Local(current, currentMinute, total, history,
                               Limit(groqBudgetTokens, groqBudgetRequests),
                               Limit(openaiBudgetTokens, openaiBudgetRequests))
    }

    constructor (backend: Memory, now: Time)
      ensures this.backend == backend && View() == NewLocal(now)
    {
      current, total, history := map[], map[], map[];
      currentMinute := Minute(now);
      groqBudgetTokens, groqBudgetRequests := GROQ_LIMIT.tpm, GROQ_LIMIT.rpm;
      openaiBudgetTokens, openaiBudgetRequests := OPENAI_LIMIT.tpm, OPENAI_LIMIT.rpm;
      this.backend := backend;
    }

    method ResetUsageData(provider: Provider)
      modifies this`current
      ensures current == old(current)[provider := NO_USAGE]
    {
      current := current[provider := NO_USAGE];
    }

    method Cycle(now: Time)
      modifies this
      ensures View() == old(View()).Cycle(now)
    {
      var newMinute := Minute(now);
      if currentMinute == newMinute {
        return;
      }
      var groq := if Groq in current then current[Groq] else NO_USAGE;
      var openai := if OpenAI in current then current[OpenAI] else NO_USAGE;
      history := history[currentMinute := map[Groq := groq, OpenAI := openai]];
      currentMinute := newMinute;
      ResetUsageData(Groq);
      ResetUsageData(OpenAI);
    }

    method SetBudgetsForTests(groqTokens: int, openaiTokens: int, groqRequests: int, openaiRequests: int)
      modifies this, backend
      ensures View() == old(View()).(groq := Limit(groqTokens, groqRequests), openai := Limit(openaiTokens, openaiRequests))
      ensures backend.View() ==
              old(backend.View()).WithBudget(Groq, groqTokens, groqRequests).WithBudget(OpenAI, openaiTokens, openaiRequests)
    {
      groqBudgetTokens, groqBudgetRequests := groqTokens, groqRequests;
      openaiBudgetTokens, openaiBudgetRequests := openaiTokens, openaiRequests;
      backend.SetBudgetForTests(Groq, groqTokens, groqRequests);
      backend.SetBudgetForTests(OpenAI, openaiTokens, openaiRequests);
    }

    method IncreaseTokens(provider: Provider, tokens: int)
      modifies this`current
      ensures current == old(current)[provider := Usage(old(View()).Used(provider).tokens + tokens,
                                                        old(View()).Used(provider).requests)]
    {
      var currentData := if provider in current then current[provider] else NO_USAGE;
      current := current[provider := currentData.(tokens := currentData.tokens + tokens)];
    }

    method IncreaseRequests(provider: Provider, requests: int)
      modifies this`current
      ensures current == old(current)[provider := Usage(old(View()).Used(provider).tokens,
                                                        old(View()).Used(provider).requests + requests)]
    {
      var currentData := if provider in current then current[provider] else NO_USAGE;
      current := current[provider := currentData.(requests := currentData.requests + requests)];
    }

    method RecordLocally(provider: Provider, tokens: int)
      modifies this`current, this`total
      ensures View() == old(View()).Record(provider, tokens)
    {
      IncreaseTokens(provider, tokens);
      IncreaseRequests(provider, 1);
      var totalData := if provider in total then total[provider] else NO_USAGE;
      total := total[provider := Usage(totalData.tokens + tokens, totalData.requests + 1)];
    }

    method RecordConsumption(provider: Provider, tokens: int, now: Time)
      modifies this, backend
      ensures View() == old(View()).Record(provider, tokens)
      ensures backend.View() == old(backend.View()).At(now).Consume(provider, tokens, 1)
    {
      RecordLocally(provider, tokens);
      backend.RecordConsumption(provider, tokens, 1, now);
    }

    method GetAvailable(provider: Provider) returns (tokens: int, requests: int)
      ensures Usage(tokens, requests) == View().Left(provider)
    {
      var used := if provider in current then current[provider] else NO_USAGE;
      match provider
      case OpenAI =>
        tokens, requests := openaiBudgetTokens - used.tokens, openaiBudgetRequests - used.requests;
      case _ =>
        tokens, requests := groqBudgetTokens - used.tokens, groqBudgetRequests - used.requests;
    }

    method SyncMinute(now: Time)
      modifies this`current, this`currentMinute
      ensures View() == old(View()).Sync(now)
    {
      var minute := Minute(now);
      if currentMinute != minute {
        currentMinute := minute;
        ResetUsageData(Groq);
        ResetUsageData(OpenAI);
      }
    }

    /** The three clock readings of one call are `asked` (in the back end), `now` and `late`. */
    method BudgetAvailableForCycle(provider: Provider, asked: Time, now: Time, late: Time)
      returns (tokens: int, requests: int)
      modifies this, backend
      ensures backend.View() == old(backend.View()).At(asked)
      ensures View() == old(View()).Sync(now)
      ensures tokens == Offer(backend.View().Left(provider).tokens, View().Left(provider).tokens, InTransition(late))
      ensures requests == Offer(backend.View().Left(provider).requests, View().Left(provider).requests, InTransition(late))
      ensures var shared, own := backend.View().Left(provider), View().Left(provider);
              && (tokens == shared.tokens || tokens == own.tokens)
              && (requests == shared.requests || requests == own.requests)
              && (!InTransition(late) ==>
                    && tokens <= shared.tokens && tokens <= own.tokens
                    && requests <= shared.requests && requests <= own.requests)
    {
      OfferIs(backend.View().At(asked).Left(provider).tokens, View().Sync(now).Left(provider).tokens, InTransition(late));
      OfferIs(backend.View().At(asked).Left(provider).requests, View().Sync(now).Left(provider).requests, InTransition(late));
      var sharedTokens, sharedRequests := backend.BudgetAvailable(provider, asked);
      SyncMinute(now);
      var localTokens, localRequests := GetAvailable(provider);
      var isTransitionPeriod := InTransition(late);
      if isTransitionPeriod {
        tokens := Lenient(sharedTokens, localTokens);
        requests := Lenient(sharedRequests, localRequests);
      } else {
        tokens := sharedTokens;
        if localTokens < tokens {
          tokens := localTokens;
        }
        requests := sharedRequests;
        if localRequests < requests {
          requests := localRequests;
        }
      }
    }
  }

  /** The branch taken near a minute boundary, for tokens and for requests alike. */
  method Lenient(shared: int, local: int) returns (offer: int)
    ensures offer == Offer(shared, local, true)
  {
    if shared == 0 && local > 0 {
      offer := local;
    } else if local == 0 && shared > 0 {
      offer := shared;
    } else {
      offer := shared;
      if local < offer {
        offer := local;
      }
    }
  }
}
