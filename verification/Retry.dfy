/**
 The retry loops: `retry.Execute` and the wrapper of a node's work function. The function being retried is an oracle from
 attempts to outcomes; delays are real numbers.
 */
module Retry {
  import opened Nodes

  datatype Config = Config(maxRetries: int, baseDelay: real, maxDelay: real, backoffMultiple: real)

  datatype Outcome<T, E> = Outcome(value: T, status: int, error: Option<E>)

  datatype Answer<T, E> = Success(value: T) | Failure(error: E) | Cancelled | Exhausted(maxAttempts: int)

  function Power(x: real, n: nat): real {
    if n == 0 then 1.0 else x * Power(x, n - 1)
  }

  function Delay(c: Config, attempt: nat): real {
    var delay := c.baseDelay * Power(c.backoffMultiple, attempt);
    if delay > c.maxDelay then c.maxDelay else delay
  }

  /** The delays before attempts 1 to `k`. */
  function Waited(c: Config, k: nat): real {
    if k == 0 then 0.0 else Waited(c, k - 1) + Delay(c, k - 1)
  }

  function UpTo(k: nat): seq<nat> {
    seq(k + 1, i => i)
  }

  /** `k` is the first attempt that is not worth another one, or the last one allowed. */
  ghost predicate StopsAt<T(!new), E(!new)>(fn: nat -> Outcome<T, E>, again: Outcome<T, E> -> bool, maxRetries: int, k: nat) {
    && k <= maxRetries
    && (forall i: nat :: i < k ==> again(fn(i)))
    && (k == maxRetries || !again(fn(k)))
  }

  /**
   `Execute` under a context that may be cancelled during the delay before an attempt. `calls` are the attempts on which
   the function was called.
   */
  method Execute<T(!new), E(!new)>(c: Config, fn: nat -> Outcome<T, E>, checker: Option<Outcome<T, E> -> bool>, cancelled: nat -> bool)
    returns (answer: Answer<T, E>, calls: seq<nat>, waited: real)
    ensures c.maxRetries < 0 <==> answer.Exhausted?
    ensures c.maxRetries < 0 ==> calls == [] && answer == Exhausted(c.maxRetries + 1)
    ensures c.maxRetries >= 0 && (forall i: nat :: !cancelled(i)) ==>
              exists k: nat :: StopsAt(fn, Again(checker), c.maxRetries, k) && calls == UpTo(k) && waited == Waited(c, k)
                               && answer == match fn(k).error { case Some(e) => Failure(e) case None => Success(fn(k).value) }
    ensures c.maxRetries >= 0 && (forall i: nat :: !cancelled(i)) && checker.None? ==> calls == [0] && waited == 0.0
    ensures answer.Cancelled? ==>
              exists k: nat :: 0 < k <= c.maxRetries && cancelled(k) && calls == UpTo(k - 1) && waited == Waited(c, k - 1)
                               && forall i: nat :: i < k ==> Again(checker)(fn(i))
  {
    calls, waited := [], 0.0;
    var lastError: Option<E> := None;
    var attempt: nat := 0;
    while attempt <= c.maxRetries
      invariant if attempt > 0 then attempt <= c.maxRetries else lastError == None
      invariant calls == seq(attempt, i => i)
      invariant waited == Waited(c, if attempt == 0 then 0 else attempt - 1)
      invariant forall i: nat :: i < attempt ==> Again(checker)(fn(i))
      decreases c.maxRetries - attempt
    {
      if attempt > 0 {
        var delay := Delay(c, attempt - 1);
        if cancelled(attempt) {
          return Cancelled, calls, waited;
        }
        waited := waited + delay;
      }
      var outcome := fn(attempt);
      calls := calls + [attempt];
      lastError := outcome.error;
      if checker.Some? && checker.value(outcome) && attempt < c.maxRetries {
        attempt := attempt + 1;
        continue;
      }
      assert StopsAt(fn, Again(checker), c.maxRetries, attempt);
      if outcome.error.None? {
        return Success(outcome.value), calls, waited;
      }
      return Failure(outcome.error.value), calls, waited;
    }
    assert lastError.None?;   // the loop is left only when it was never entered
    answer := Exhausted(c.maxRetries + 1);
  }

  /** Without an error checker nothing is retried. */
  function Again<T, E>(checker: Option<Outcome<T, E> -> bool>): Outcome<T, E> -> bool {
    (o: Outcome<T, E>) => checker.Some? && checker.value(o)
  }

  // ---------------------------------------------------------------- a node's work function

  datatype RunResult<T, E> = RunResult(value: T, error: Option<E>)

  function Worth<T, E>(retryable: E -> bool): Outcome<T, E> -> bool {
    (o: Outcome<T, E>) => o.error.Some? && retryable(o.error.value)
  }

  function AsOutcome<T, E>(r: RunResult<T, E>): Outcome<T, E> {
    Outcome(r.value, 0, r.error)
  }

  /** `wrapWithRetry`: `zero` is the result no attempt has set. */
  method RunWithRetry<T(!new), E(!new)>(c: Config, workFn: nat -> RunResult<T, E>, retryable: E -> bool, zero: T)
    returns (result: RunResult<T, E>, calls: seq<nat>, waited: real)
    ensures c.maxRetries < 0 ==> calls == [] && result == RunResult(zero, None)
    ensures c.maxRetries >= 0 ==>
              exists k: nat :: StopsAt((i: nat) => AsOutcome(workFn(i)), Worth(retryable), c.maxRetries, k) && calls == UpTo(k)
                               && result == workFn(k) && waited == Waited(c, k)
                               && forall i: nat :: i < k ==> workFn(i).error.Some? && retryable(workFn(i).error.value)
  {
    calls, waited := [], 0.0;
    result := RunResult(zero, None);
    var attempt: nat := 0;
    ghost var fn := (i: nat) => AsOutcome(workFn(i));
    while attempt <= c.maxRetries
      invariant attempt > 0 ==> attempt <= c.maxRetries
      invariant calls == seq(attempt, i => i)
      invariant waited == Waited(c, if attempt == 0 then 0 else attempt - 1)
      invariant forall i: nat :: i < attempt ==> Worth(retryable)(fn(i))
      invariant attempt == 0 ==> result == RunResult(zero, None)
      decreases c.maxRetries - attempt
    {
      if attempt > 0 {
        waited := waited + Delay(c, attempt - 1);
      }
      result := workFn(attempt);
      calls := calls + [attempt];
      if result.error.None? {
        assert StopsAt(fn, Worth(retryable), c.maxRetries, attempt);
        return;
      }
      if retryable(result.error.value) && attempt < c.maxRetries {
        attempt := attempt + 1;
        continue;
      }
      assert StopsAt(fn, Worth(retryable), c.maxRetries, attempt);
      return;
    }
  }

  // ---------------------------------------------------------------- what the loops promise

  /** There is exactly one attempt to stop at. */
  lemma StopsOnce<T(!new), E(!new)>(fn: nat -> Outcome<T, E>, again: Outcome<T, E> -> bool, maxRetries: nat) returns (k: nat)
    ensures StopsAt(fn, again, maxRetries, k)
    ensures forall j: nat :: StopsAt(fn, again, maxRetries, j) ==> j == k
  {
    k := 0;
    while k < maxRetries && again(fn(k))
      invariant k <= maxRetries && forall i: nat :: i < k ==> again(fn(i))
    {
      k := k + 1;
    }
    forall j: nat | StopsAt(fn, again, maxRetries, j)
      ensures j == k
    {
      assert j < k ==> again(fn(j));
      assert k < j ==> again(fn(k));
    }
  }

  /** The wait is capped: no more than the greatest delay for each retry allowed. */
  lemma {:induction false} WaitedCapped(c: Config, k: nat)
    requires c.maxDelay >= 0.0
    ensures Waited(c, k) <= k as real * c.maxDelay
    ensures k <= c.maxRetries ==> Waited(c, k) <= c.maxRetries as real * c.maxDelay
  {
    if k > 0 {
      WaitedCapped(c, k - 1);
      assert k as real * c.maxDelay == (k - 1) as real * c.maxDelay + c.maxDelay;
    }
    if k <= c.maxRetries {
      assert (c.maxRetries - k) as real * c.maxDelay >= 0.0;
      assert c.maxRetries as real * c.maxDelay == k as real * c.maxDelay + (c.maxRetries - k) as real * c.maxDelay;
    }
  }

  lemma {:induction false} PowerGrows(x: real, n: nat)
    requires x >= 1.0
    ensures 1.0 <= Power(x, n) <= Power(x, n + 1)
  {
    if n > 0 {
      PowerGrows(x, n - 1);
      assert Power(x, n + 1) - Power(x, n) == (x - 1.0) * Power(x, n);
    }
  }

  /** With a multiple of at least one, delays never shrink, so once one is capped all later ones are. */
  lemma DelaysGrow(c: Config, attempt: nat)
    requires c.backoffMultiple >= 1.0 && c.baseDelay >= 0.0
    ensures Delay(c, attempt) <= Delay(c, attempt + 1)
    ensures Delay(c, attempt) == c.maxDelay ==> Delay(c, attempt + 1) == c.maxDelay
  {
    PowerGrows(c.backoffMultiple, attempt);
    var p, q := Power(c.backoffMultiple, attempt), Power(c.backoffMultiple, attempt + 1);
    assert c.baseDelay * q - c.baseDelay * p == c.baseDelay * (q - p) >= 0.0;
  }

  lemma PowerSplits(x: real, n: nat)
    ensures Power(x, n + 1) == x * Power(x, n)
  {
  }

  /**
   The backoff, from one delay to the next: the first delay is the base, each later one the multiple of the one before, and
   none is longer than the greatest delay.
   */
  lemma Backoff(c: Config, attempt: nat)
    requires c.backoffMultiple >= 1.0 && c.baseDelay >= 0.0 && c.maxDelay >= 0.0
    ensures Delay(c, 0) == if c.baseDelay > c.maxDelay then c.maxDelay else c.baseDelay
    ensures var next := c.backoffMultiple * Delay(c, attempt);
            Delay(c, attempt + 1) == if next > c.maxDelay then c.maxDelay else next
  {
    var p, x := Power(c.backoffMultiple, attempt), c.backoffMultiple;
    PowerGrows(x, attempt);
    PowerSplits(x, attempt);
    assert c.baseDelay * Power(x, attempt + 1) == x * (c.baseDelay * p);
    assert (x - 1.0) * c.maxDelay >= 0.0;
    if c.baseDelay * p > c.maxDelay {
      assert x * (c.baseDelay * p) - c.baseDelay * p == (x - 1.0) * (c.baseDelay * p) >= 0.0;
    }
  }
}
