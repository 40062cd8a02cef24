/** The in-process back end (`rate_limit/backends/memory/memory.go`). The clock readings are parameters. */
module MemoryBackend {
  import opened Nodes
  import opened RateLimit

  class Memory {
    var state: map<Provider, Usage>
    var currentMinute: nat
    var budgets: map<Provider, Limit>

    ghost function View(): Book<Provider>
      reads this
    {
      Book(state, currentMinute, budgets)
    }

    constructor (now: Time)
      ensures View() == NewBook(now)
    {
      state := map[];
      currentMinute := Minute(now);
      budgets := map[Groq := GROQ_LIMIT, OpenAI := OPENAI_LIMIT];
    }

    method CheckAndResetMinute(now: Time)
      modifies this`state, this`currentMinute
      ensures View() == old(View()).At(now)
    {
      var minute := Minute(now);
      if currentMinute != minute {
        currentMinute := minute;
        state := map[];
      }
    }

    method BudgetAvailable(provider: Provider, now: Time) returns (tokens: int, requests: int)
      modifies this`state, this`currentMinute
      ensures View() == old(View()).At(now)
      ensures Usage(tokens, requests) == View().Left(provider)
    {
      CheckAndResetMinute(now);
      var usage := if provider in state then state[provider] else NO_USAGE;
      var budget := if provider in budgets then budgets[provider] else NO_LIMIT;
      tokens := budget.tpm - usage.tokens;
      requests := budget.rpm - usage.requests;
      if tokens < 0 {
        tokens := 0;
      }
      if requests < 0 {
        requests := 0;
      }
    }

    method RecordConsumption(provider: Provider, tokens: int, requests: int, now: Time)
      modifies this`state, this`currentMinute
      ensures View() == old(View()).At(now).Consume(provider, tokens, requests)
    {
      CheckAndResetMinute(now);
      var usage := if provider in state then state[provider] else NO_USAGE;
      usage := Usage(usage.tokens + tokens, usage.requests + requests);
      state := state[provider := usage];
    }

    method TimeUntilReset(now: Time) returns (duration: nat)
      ensures Minute(now + duration) == Minute(now) + 1
      ensures forall u: Time :: now <= u < now + duration ==> Minute(u) == Minute(now)
    {
      UntilResetIsNext(now);
      duration := UntilReset(now);
    }

    method SetBudgetForTests(provider: Provider, tokens: int, requests: int)
      modifies this`budgets
      ensures View() == old(View()).WithBudget(provider, tokens, requests)
    {
      budgets := budgets[provider := Limit(tokens, requests)];
    }
  }
}
