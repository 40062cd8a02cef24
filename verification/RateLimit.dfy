/** What every back end of the rate limiter keeps: the usage of one minute, and the budgets. */
module RateLimit {
  import opened Nodes

  datatype Limit = Limit(tpm: int, rpm: int)

  datatype Usage = Usage(tokens: int, requests: int)

  const NO_USAGE := Usage(0, 0)
  const NO_LIMIT := Limit(0, 0)
  const GROQ_LIMIT := Limit(360_000, 1_000)
  const OPENAI_LIMIT := Limit(9_000_000, 10_000)

  /** Nanoseconds since the epoch. */
  type Time = nat

  const SECOND: nat := 1_000_000_000
  const MINUTE: nat := 60_000_000_000

  /** The providers with a budget of their own. */
  predicate Known(p: Provider) {
    p.Groq? || p.OpenAI?
  }

  function Minute(t: Time): nat {
    t / MINUTE
  }

  /** Within two seconds of a minute boundary. */
  predicate InTransition(t: Time) {
    t % MINUTE < 2 * SECOND || t % MINUTE > 58 * SECOND
  }

  /** The time left in the minute of `t`. */
  function UntilReset(t: Time): nat {
    MINUTE - t % MINUTE
  }

  /** Waiting that long, and no less, leads to the next minute. */
  lemma UntilResetIsNext(t: Time)
    ensures 0 < UntilReset(t) <= MINUTE && (t + UntilReset(t)) % MINUTE == 0
    ensures Minute(t + UntilReset(t)) == Minute(t) + 1
    ensures forall u: Time :: t <= u < t + UntilReset(t) ==> Minute(u) == Minute(t)
  {
    forall u: Time | t <= u < t + UntilReset(t)
      ensures Minute(u) == Minute(t)
    {
      assert Minute(t) * MINUTE <= u < (Minute(t) + 1) * MINUTE;
    }
  }

  /** The memory back end keys its maps by provider, the manager by provider name. */
  datatype Book<K(==)> = Book(used: map<K, Usage>, minute: nat, budgets: map<K, Limit>) {
    function Used(k: K): Usage {
      if k in used then used[k] else NO_USAGE
    }

    function Budget(k: K): Limit {
      if k in budgets then budgets[k] else NO_LIMIT
    }

    /** What is left of the budget, and never below zero. */
    function Left(k: K): Usage {
      Usage(Floor(Budget(k).tpm - Used(k).tokens), Floor(Budget(k).rpm - Used(k).requests))
    }

    /** `checkAndResetMinute`: usage is dropped by the first call that sees another minute. */
    function At(t: Time): Book<K> {
      if minute == Minute(t) then this else this.(minute := Minute(t), used := map[])
    }

    /** `resetMinute`, which drops the usage even if the minute is the same. */
    function Wiped(t: Time): Book<K> {
      this.(minute := Minute(t), used := map[])
    }

    function Consume(k: K, tokens: int, requests: int): Book<K> {
      this.(used := used[k := Usage(Used(k).tokens + tokens, Used(k).requests + requests)])
    }

    function WithBudget(k: K, tokens: int, requests: int): Book<K> {
      this.(budgets := budgets[k := Limit(tokens, requests)])
    }
  }

  function Floor(x: int): nat {
    if x < 0 then 0 else x
  }

  function NewBook(t: Time): Book<Provider> {
    Book(map[], Minute(t), map[Groq := GROQ_LIMIT, OpenAI := OPENAI_LIMIT])
  }
}
