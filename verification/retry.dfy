/** The retry decorator: up to `max_retries + 1` attempts of an operation, with an
    exponentially growing, jittered and capped sleep between attempts, and an immediate
    give-up on errors that retrying cannot cure.

    The operation's k-th attempt (from 0) produces `operation(k)`; the k-th jitter draw of
    `random.uniform(0, 1)` is `jitter(k)`. The sleeps are returned instead of performed. */
module Retry {
  import opened Wrappers
  import Text

  /** What `time.sleep` raises (as `ValueError`) for a negative length. It is raised inside the
      exception handler, so it leaves the decorated call. */
  const NegativeSleep: string := "sleep length must be non-negative"

  /** The lower-case fragments that mark an error as not worth retrying. */
  const NonRetryableMarkers: seq<string> := ["auth", "permission", "invalid", "not found", "bad request"]

  /** What re-raising `None` produces when no attempt was made. */
  const NoExceptionToRaise: string := "exceptions must derive from BaseException"

  /** The error's text, lower-cased, contains one of the markers. */
  predicate IsNonRetryable(message: string) {
    exists k :: 0 <= k < |NonRetryableMarkers| && Text.Contains(Text.Lower(message), NonRetryableMarkers[k])
  }

  function Pow2(n: nat): (p: nat)
    ensures p >= 1
  {
    if n == 0 then 1 else 2 * Pow2(n - 1)
  }

  /** The sleep after failed attempt `attempt`, with jitter draw `jitter`. */
  function BackoffDelay(attempt: nat, factor: real, jitter: real, maxDelay: real): real {
    var raw := factor * Pow2(attempt) as real + jitter;
    if raw < maxDelay then raw else maxDelay
  }

  /** The sleep never exceeds the cap; below the cap it is the exponential base plus at most
      one second of jitter. */
  lemma BackoffDelayBounds(attempt: nat, factor: real, jitter: real, maxDelay: real)
    requires 0.0 <= jitter <= 1.0
    ensures BackoffDelay(attempt, factor, jitter, maxDelay) <= maxDelay
    ensures BackoffDelay(attempt, factor, jitter, maxDelay) <= factor * Pow2(attempt) as real + 1.0
    ensures factor * Pow2(attempt) as real + 1.0 <= maxDelay ==>
              factor * Pow2(attempt) as real <= BackoffDelay(attempt, factor, jitter, maxDelay)
  {
    var raw := factor * Pow2(attempt) as real + jitter;
    assert BackoffDelay(attempt, factor, jitter, maxDelay) <= raw;
  }

  /** With a non-negative factor the exponential base at least doubles from one attempt to
      the next. */
  lemma {:induction false} BackoffBaseDoubles(attempt: nat, factor: real)
    requires factor >= 0.0
    ensures factor * Pow2(attempt + 1) as real == 2.0 * (factor * Pow2(attempt) as real)
    ensures factor * Pow2(attempt) as real >= factor
  {
    if attempt > 0 {
      BackoffBaseDoubles(attempt - 1, factor);
    }
  }

  /** The classification ignores letter case. */
  lemma {:induction false} NonRetryableIgnoresCase(message: string)
    ensures IsNonRetryable(Text.Upper(message)) <==> IsNonRetryable(message)
  {
    var a := Text.Lower(Text.Upper(message));
    var b := Text.Lower(message);
    assert forall i :: 0 <= i < |b| ==> a[i] == b[i];
    assert a == b;
  }

  /** An authentication failure is not retried. */
  lemma AuthenticationFailureIsNonRetryable()
    ensures IsNonRetryable("Authentication failed")
  {
    var lowered := Text.Lower("Authentication failed");
    assert lowered[0..4] == "auth";
    Text.ContainsWitness(lowered, "auth", 0);
    assert NonRetryableMarkers[0] == "auth";
  }

  /** The decorated call. It returns the first success; otherwise the error of the last
      attempt made, which is the first non-retryable error or the error of attempt
      `maxRetries`. Every attempt before the last failed with a retryable error and was
      followed by its backoff sleep. A negative backoff (a negative `max_delay` or factor)
      makes the sleep itself raise, which ends the call after that attempt. */
  method RetryWithBackoff<T>(operation: nat -> Outcome<T>, maxRetries: int, backoffFactor: real,
                             maxDelay: real, jitter: nat -> real)
    returns (r: Outcome<T>, calls: nat, delays: seq<real>)
    requires forall k: nat :: 0.0 <= jitter(k) <= 1.0
    ensures maxRetries < 0 ==> calls == 0 && delays == [] && r == Failure(NoExceptionToRaise)
    ensures maxRetries >= 0 ==> 1 <= calls <= maxRetries + 1
    ensures forall k: nat :: k + 1 < calls ==>
              operation(k).Failure? && !IsNonRetryable(operation(k).message)
    ensures calls - 1 <= |delays| <= calls
    ensures forall k :: 0 <= k < |delays| ==>
              delays[k] == BackoffDelay(k, backoffFactor, jitter(k), maxDelay) && delays[k] <= maxDelay
    ensures forall k :: 0 <= k < calls - 1 ==> delays[k] >= 0.0
    ensures calls >= 1 && |delays| == calls - 1 ==>
              r == operation(calls - 1) &&
              (r.Success? || IsNonRetryable(r.message) || calls == maxRetries + 1)
    ensures calls >= 1 && |delays| == calls ==>
              operation(calls - 1).Failure? && !IsNonRetryable(operation(calls - 1).message) &&
              calls <= maxRetries && delays[calls - 1] < 0.0 && r == Failure(NegativeSleep)
    ensures maxDelay < 0.0 ==> calls <= 1
  {
    calls := 0;
    delays := [];
    var lastError: Option<string> := None;
    var attempt: nat := 0;
    while attempt < maxRetries + 1
      invariant calls == attempt
      invariant maxRetries >= 0 ==> attempt <= maxRetries + 1
      invariant maxRetries < 0 ==> attempt == 0
      invariant attempt == 0 ==> lastError == None
      invariant attempt > 0 ==>
                  operation(attempt - 1).Failure? && lastError == Some(operation(attempt - 1).message)
      invariant forall k: nat :: k < attempt ==>
                  operation(k).Failure? && !IsNonRetryable(operation(k).message)
      invariant attempt == 0 ==> delays == []
      invariant attempt > 0 ==> |delays| == if attempt <= maxRetries then attempt else attempt - 1
      invariant forall k :: 0 <= k < |delays| ==>
                  delays[k] == BackoffDelay(k, backoffFactor, jitter(k), maxDelay) &&
                  0.0 <= delays[k] <= maxDelay
      invariant maxDelay < 0.0 ==> delays == []
      decreases maxRetries + 1 - attempt
    {
      var outcome := operation(attempt);
      calls := calls + 1;
      if outcome.Success? {
        return outcome, calls, delays;
      }
      lastError := Some(outcome.message);
      if IsNonRetryable(outcome.message) {
        return outcome, calls, delays;
      }
      if attempt < maxRetries {
        var delay := BackoffDelay(attempt, backoffFactor, jitter(attempt), maxDelay);
        BackoffDelayBounds(attempt, backoffFactor, jitter(attempt), maxDelay);
        delays := delays + [delay];
        if delay < 0.0 {
          return Failure(NegativeSleep), calls, delays;
        }
      }
      attempt := attempt + 1;
    }
    match lastError {
      case None => r := Failure(NoExceptionToRaise);
      case Some(message) => r := Failure(message);
    }
  }
}
