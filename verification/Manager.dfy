/** The manager process (`rate_limit/backends/uds/manager.go`) without its sockets and timers. */
module UdsManager {
  import opened Nodes
  import opened RateLimit
  import opened Text
  import opened Protocol

  function NewManagerBook(now: Time): Book<string> {
    Book(map[], Minute(now), map["groq" := GROQ_LIMIT, "openai" := OPENAI_LIMIT])
  }

  class Manager {
    var state: map<string, Usage>
    var currentMinute: nat
    var budgets: map<string, Limit>

    ghost function View(): Book<string>
      reads this
    {
      Book(state, currentMinute, budgets)
    }

    constructor (now: Time)
      ensures View() == NewManagerBook(now)
    {
      state := map[];
      currentMinute := Minute(now);
      budgets := map["groq" := GROQ_LIMIT, "openai" := OPENAI_LIMIT];
    }

    method CheckAndResetMinute(now: Time)
      modifies this`state, this`currentMinute
      ensures View() == old(View()).At(now)
    {
      var minute := Minute(now);
      if currentMinute != minute {
        currentMinute := minute;
        state := map[];
      }
    }

    method GetBudget(key: string, now: Time) returns (tokens: int, requests: int)
      modifies this`state, this`currentMinute
      ensures View() == old(View()).At(now)
      ensures Usage(tokens, requests) == View().Left(key)
    {
      CheckAndResetMinute(now);
      var usage := if key in state then state[key] else NO_USAGE;
      var budget := if key in budgets then budgets[key] else NO_LIMIT;
      tokens := budget.tpm - usage.tokens;
      requests := budget.rpm - usage.requests;
      if tokens < 0 {
        tokens := 0;
      }
      if requests < 0 {
        requests := 0;
      }
    }

    method RecordConsumption(key: string, tokens: int, requests: int, now: Time)
      modifies this`state, this`currentMinute
      ensures View() == old(View()).At(now).Consume(key, tokens, requests)
    {
      CheckAndResetMinute(now);
      var usage := if key in state then state[key] else NO_USAGE;
      usage := Usage(usage.tokens + tokens, usage.requests + requests);
      state := state[key := usage];
    }

    method SetBudget(key: string, tokens: int, requests: int)
      modifies this`budgets
      ensures View() == old(View()).WithBudget(key, tokens, requests)
    {
      budgets := budgets[key := Limit(tokens, requests)];
    }

    method ResetMinute(now: Time)
      modifies this`state, this`currentMinute
      ensures View() == old(View()).Wiped(now)
    {
      currentMinute := Minute(now);
      state := map[];
    }

    /** The two commands with numbers. */
    method HandleNumbers(parts: seq<string>, set_: bool, now: Time) returns (reply: string)
      modifies this
      ensures (View(), reply) == match ParseNumbers(parts, set_)
                                 case Understood(cmd) => Execute(old(View()), now, cmd)
                                 case Refused(error) => (old(View()), error)
    {
      if |parts| != 4 {
        return if set_ then "ERROR invalid SET_BUDGET command" else "ERROR invalid CONSUME command";
      }
      var tokens, requests := Atoi(parts[2]), Atoi(parts[3]);
      if tokens.None? || requests.None? {
        return "ERROR invalid numbers";
      }
      if set_ {
        SetBudget(parts[1], tokens.value, requests.value);
      } else {
        RecordConsumption(parts[1], tokens.value, requests.value, now);
      }
      return "OK";
    }

    method HandleCommand(line: string, now: Time) returns (reply: string)
      modifies this
      ensures (View(), reply) == Handle(old(View()), now, line)
    {
      var parts := Fields(line);
      if |parts| == 0 {
        return "ERROR empty command";
      }
      match parts[0]
      case "BUDGET" =>
        if |parts| != 2 {
          return "ERROR invalid BUDGET command";
        }
        var tokens, requests := GetBudget(parts[1], now);
        reply := Join([Format(tokens), Format(requests)]);
      case "CONSUME" => reply := HandleNumbers(parts, false, now);
      case "RESET" =>
        ResetMinute(now);
        reply := "OK";
      case "SET_BUDGET" => reply := HandleNumbers(parts, true, now);
      case "TIME_UNTIL_RESET" => reply := Format(UntilReset(now) / MILLISECOND);
      case "PING" => reply := "PONG";
      case _ => reply := "ERROR unknown command";
    }
  }
}
