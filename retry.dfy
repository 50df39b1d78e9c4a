/** The retry decorator: call a function up to `max_attempts` times, sleeping
    `initial_delay * backoff_factor^(k-1)` seconds after the k-th failed
    attempt, and re-raise the last exception when every attempt fails.

    The wrapped function is a parameter `call`: `call(k)` is what the k-th
    call does, return a value or raise an exception. `catches` says whether an
    exception belongs to the listed exception classes. The sleeps are
    recorded, not performed. */
module Retry {

  datatype Attempt<T, E> = Returns(value: T) | Raises(error: E)

  /** What the wrapper does: return a value, raise, or (when the loop runs
      zero times) fall off the end and return `None`. */
  datatype Outcome<T, E> = Returned(value: T) | Raised(error: E) | NoneReturned

  /** The outcome with the number of calls made and the sleeps taken. */
  datatype Trace<T, E> = Trace(outcome: Outcome<T, E>, calls: nat, sleeps: seq<real>)

  function Pow(b: real, n: nat): real
  {
    if n == 0 then 1.0 else b * Pow(b, n - 1)
  }

  /** Independent description of the sleeps: `n` delays starting at `d`,
      each `b` times the one before. */
  function Delays(d: real, b: real, n: nat): (r: seq<real>)
    ensures |r| == n
    decreases n
  {
    if n == 0 then [] else [d] + Delays(d * b, b, n - 1)
  }

  /** The loop from attempt `k` on, with `delay` the sleep that follows a
      failure of attempt `k`. */
  function RetryFrom<T, E>(call: nat -> Attempt<T, E>, catches: E -> bool, maxAttempts: int,
                           k: nat, delay: real, backoff: real): Trace<T, E>
    requires 1 <= k
    decreases if maxAttempts >= k then maxAttempts - k else 0
  {
    if k > maxAttempts then Trace(NoneReturned, 0, [])
    else match call(k)
      case Returns(v) => Trace(Returned(v), 1, [])
      case Raises(e) =>
        if !catches(e) || k == maxAttempts then Trace(Raised(e), 1, [])
        else
          var rest := RetryFrom(call, catches, maxAttempts, k + 1, delay * backoff, backoff);
          Trace(rest.outcome, rest.calls + 1, [delay] + rest.sleeps)
  }

  /** `retry_with_backoff(max_attempts, initial_delay, backoff_factor, exceptions)(func)()`. */
  function Retry<T, E>(call: nat -> Attempt<T, E>, catches: E -> bool, maxAttempts: int,
                       initialDelay: real, backoff: real): Trace<T, E>
  {
    RetryFrom(call, catches, maxAttempts, 1, initialDelay, backoff)
  }

  /** Attempts `from` up to but not including `to` raise listed exceptions. */
  predicate FailsRetryably<T, E>(call: nat -> Attempt<T, E>, catches: E -> bool, from: nat, to: nat)
  {
    forall j :: from <= j < to ==> call(j).Raises? && catches(call(j).error)
  }

  // -----------------------------------------------------------------------
  // The shape of every run

  /** One sleep fewer than calls (none after the final attempt), never more
      calls than attempts allowed, and the sleeps grow geometrically. */
  lemma {:induction false} RetryFromShape<T, E>(call: nat -> Attempt<T, E>, catches: E -> bool, maxAttempts: int,
                                                k: nat, delay: real, backoff: real)
    requires 1 <= k
    decreases if maxAttempts >= k then maxAttempts - k else 0
    ensures var t := RetryFrom(call, catches, maxAttempts, k, delay, backoff);
            (k <= maxAttempts <==> t.calls >= 1)
            && k + t.calls <= (if maxAttempts >= k then maxAttempts + 1 else k)
            && (t.calls >= 1 ==> t.sleeps == Delays(delay, backoff, t.calls - 1))
            && (t.outcome.NoneReturned? <==> t.calls == 0)
  {
    if k <= maxAttempts && call(k).Raises? && catches(call(k).error) && k != maxAttempts {
      RetryFromShape(call, catches, maxAttempts, k + 1, delay * backoff, backoff);
    }
  }

  lemma RetryShape<T, E>(call: nat -> Attempt<T, E>, catches: E -> bool, maxAttempts: int,
                         initialDelay: real, backoff: real)
    ensures var t := Retry(call, catches, maxAttempts, initialDelay, backoff);
            (maxAttempts >= 1 <==> t.calls >= 1)
            && t.calls <= (if maxAttempts >= 1 then maxAttempts else 0)
            && (t.calls >= 1 ==> |t.sleeps| == t.calls - 1 && t.sleeps == Delays(initialDelay, backoff, t.calls - 1))
            && (t.outcome.NoneReturned? <==> maxAttempts < 1)
  {
    RetryFromShape(call, catches, maxAttempts, 1, initialDelay, backoff);
  }

  /** The sleep before attempt `i + 2` is `initial_delay * backoff_factor^i`. */
  lemma {:induction false} DelaysAt(d: real, b: real, n: nat, i: nat)
    requires i < n
    decreases n
    ensures Delays(d, b, n)[i] == d * Pow(b, i)
  {
    if i > 0 {
      DelaysAt(d * b, b, n - 1, i - 1);
      assert Delays(d, b, n)[i] == (d * b) * Pow(b, i - 1);
      assert (d * b) * Pow(b, i - 1) == d * (b * Pow(b, i - 1));
    }
  }

  // -----------------------------------------------------------------------
  // Outcomes

  /** When attempts before `k` fail retryably and attempt `k` returns, the
      wrapper returns that value after exactly `k` calls. */
  lemma {:induction false} SucceedsFrom<T, E>(call: nat -> Attempt<T, E>, catches: E -> bool, maxAttempts: int,
                                              j: nat, k: nat, delay: real, backoff: real)
    requires 1 <= j <= k <= maxAttempts
    requires FailsRetryably(call, catches, j, k) && call(k).Returns?
    decreases k - j
    ensures RetryFrom(call, catches, maxAttempts, j, delay, backoff).outcome == Returned(call(k).value)
    ensures RetryFrom(call, catches, maxAttempts, j, delay, backoff).calls == k - j + 1
  {
    if j < k {
      SucceedsFrom(call, catches, maxAttempts, j + 1, k, delay * backoff, backoff);
    }
  }

  lemma SucceedsAtAttempt<T, E>(call: nat -> Attempt<T, E>, catches: E -> bool, maxAttempts: int,
                                initialDelay: real, backoff: real, k: nat)
    requires 1 <= k <= maxAttempts
    requires FailsRetryably(call, catches, 1, k) && call(k).Returns?
    ensures Retry(call, catches, maxAttempts, initialDelay, backoff).outcome == Returned(call(k).value)
    ensures Retry(call, catches, maxAttempts, initialDelay, backoff).calls == k
  {
    SucceedsFrom(call, catches, maxAttempts, 1, k, initialDelay, backoff);
  }

  /** When every attempt raises a listed exception, there are exactly
      `max_attempts` calls and the last exception is raised. */
  lemma {:induction false} ExhaustsFrom<T, E>(call: nat -> Attempt<T, E>, catches: E -> bool, maxAttempts: int,
                                              j: nat, delay: real, backoff: real)
    requires 1 <= j <= maxAttempts
    requires FailsRetryably(call, catches, j, maxAttempts + 1)
    decreases maxAttempts - j
    ensures RetryFrom(call, catches, maxAttempts, j, delay, backoff).outcome == Raised(call(maxAttempts).error)
    ensures RetryFrom(call, catches, maxAttempts, j, delay, backoff).calls == maxAttempts - j + 1
  {
    if j < maxAttempts {
      ExhaustsFrom(call, catches, maxAttempts, j + 1, delay * backoff, backoff);
    }
  }

  lemma AllAttemptsFail<T, E>(call: nat -> Attempt<T, E>, catches: E -> bool, maxAttempts: int,
                              initialDelay: real, backoff: real)
    requires maxAttempts >= 1
    requires FailsRetryably(call, catches, 1, maxAttempts + 1)
    ensures Retry(call, catches, maxAttempts, initialDelay, backoff).outcome == Raised(call(maxAttempts).error)
    ensures Retry(call, catches, maxAttempts, initialDelay, backoff).calls == maxAttempts
    ensures |Retry(call, catches, maxAttempts, initialDelay, backoff).sleeps| == maxAttempts - 1
  {
    ExhaustsFrom(call, catches, maxAttempts, 1, initialDelay, backoff);
    RetryShape(call, catches, maxAttempts, initialDelay, backoff);
  }

  /** An exception outside the listed classes propagates from the first
      attempt without a retry or a sleep. */
  lemma UnlistedPropagates<T, E>(call: nat -> Attempt<T, E>, catches: E -> bool, maxAttempts: int,
                                 initialDelay: real, backoff: real)
    requires maxAttempts >= 1 && call(1).Raises? && !catches(call(1).error)
    ensures Retry(call, catches, maxAttempts, initialDelay, backoff) == Trace(Raised(call(1).error), 1, [])
  {
  }

  /** With `max_attempts < 1` the function is never called and the wrapper
      returns `None`. */
  lemma NoAttempts<T, E>(call: nat -> Attempt<T, E>, catches: E -> bool, maxAttempts: int,
                         initialDelay: real, backoff: real)
    requires maxAttempts < 1
    ensures Retry(call, catches, maxAttempts, initialDelay, backoff) == Trace(NoneReturned, 0, [])
  {
  }

  // -----------------------------------------------------------------------
  // The wrapper's loop

  lemma RetryFromStep<T, E>(call: nat -> Attempt<T, E>, catches: E -> bool, maxAttempts: int,
                            k: nat, delay: real, backoff: real)
    requires 1 <= k < maxAttempts && call(k).Raises? && catches(call(k).error)
    ensures var t := RetryFrom(call, catches, maxAttempts, k, delay, backoff);
            var rest := RetryFrom(call, catches, maxAttempts, k + 1, delay * backoff, backoff);
            t == Trace(rest.outcome, rest.calls + 1, [delay] + rest.sleeps)
  {
  }

  /** The decorated call: `calls` is how many times the function ran and
      `sleeps` the `time.sleep` arguments in order. */
  method RetryWithBackoff<T, E>(call: nat -> Attempt<T, E>, catches: E -> bool, maxAttempts: int,
                                initialDelay: real, backoff: real)
    returns (r: Outcome<T, E>, calls: nat, sleeps: seq<real>)
    ensures Trace(r, calls, sleeps) == Retry(call, catches, maxAttempts, initialDelay, backoff)
  {
    var delay := initialDelay;
    calls, sleeps := 0, [];
    var attempt := 1;
    while attempt <= maxAttempts
      invariant 1 <= attempt && calls == attempt - 1
      invariant var rest := RetryFrom(call, catches, maxAttempts, attempt, delay, backoff);
                Trace(rest.outcome, calls + rest.calls, sleeps + rest.sleeps)
                == Retry(call, catches, maxAttempts, initialDelay, backoff)
      decreases maxAttempts - attempt
    {
      calls := calls + 1;
      match call(attempt)
      case Returns(v) =>
        assert RetryFrom(call, catches, maxAttempts, attempt, delay, backoff) == Trace(Returned(v), 1, []);
        assert sleeps + [] == sleeps;
        r := Returned(v);
        return;
      case Raises(e) =>
        if !catches(e) || attempt == maxAttempts {
          assert RetryFrom(call, catches, maxAttempts, attempt, delay, backoff) == Trace(Raised(e), 1, []);
          assert sleeps + [] == sleeps;
          r := Raised(e);
          return;
        }
        RetryFromStep(call, catches, maxAttempts, attempt, delay, backoff);
        var rest := RetryFrom(call, catches, maxAttempts, attempt + 1, delay * backoff, backoff);
        assert sleeps + ([delay] + rest.sleeps) == (sleeps + [delay]) + rest.sleeps;
        sleeps := sleeps + [delay];
        delay := delay * backoff;
        attempt := attempt + 1;
    }
    assert RetryFrom(call, catches, maxAttempts, attempt, delay, backoff) == Trace(NoneReturned, 0, []);
    assert sleeps + [] == sleeps;
    r := NoneReturned;
  }
}
