/** The persisted circuit breaker: a three-state machine (CLOSED, OPEN, HALF_OPEN) over a
    consecutive-failure count, whose state is written to a per-name record after every
    outcome and read back when a breaker of that name is constructed.

    Times are the readings of the wall clock (`time.time()`, in seconds) at the points where the
    breaker reads it; they are passed in. The state files are an abstract map from breaker
    name to stored record. */
module CircuitBreakers {
  import opened Wrappers

  datatype BreakerState = Closed | Open | HalfOpen

  /** The three fields of a breaker that calls change and that are persisted. */
  datatype Snapshot = Snapshot(failureCount: int, state: BreakerState, lastFailureTime: Option<real>)

  /** `_reset_state`: closed, no failures, no failure time. */
  const Fresh: Snapshot := Snapshot(0, Closed, None)

  /** The invariant calls keep: an open breaker has reached its threshold and knows when it
      last failed (so the timeout check in `call` has a time to subtract). */
  predicate OpenInvariant(s: Snapshot, threshold: int) {
    s.state == Open ==> s.failureCount >= threshold && s.lastFailureTime.Some?
  }

  /** `on_success` on the in-memory fields. */
  function AfterSuccess(s: Snapshot): Snapshot {
    Snapshot(0, Closed, s.lastFailureTime)
  }

  /** `on_failure` at clock reading `now` on the in-memory fields. */
  function AfterFailure(s: Snapshot, threshold: int, now: real): Snapshot {
    var count := s.failureCount + 1;
    Snapshot(count, if count >= threshold then Open else s.state, Some(now))
  }

  /** What `call` hands back to its caller: the operation's own result or exception, the
      synthetic "service unavailable" exception, or the `TypeError` that subtracting a missing
      failure time raises when an OPEN record carries none. */
  datatype CallResult<T> = Returned(value: T) | Raised(message: string) | ServiceUnavailable | MissingFailureTime

  /** One `call`: the fields afterwards, what the caller sees, and whether the operation ran. */
  datatype CallStep<T> = CallStep(after: Snapshot, result: CallResult<T>, invoked: bool)

  /** `call(func)` where `func` would produce `outcome`; the gate reads the clock as `now`,
      and a failure is recorded at the later reading `failedAt`. */
  function CallTransition<T>(s: Snapshot, threshold: int, timeout: int, outcome: Outcome<T>,
                             now: real, failedAt: real): CallStep<T>
  {
    if s.state == Open then
      match s.lastFailureTime
      case None => CallStep(s, MissingFailureTime, false)
      case Some(t) =>
        if now - t < timeout as real then CallStep(s, ServiceUnavailable, false)
        else Invoke(s.(state := HalfOpen), threshold, outcome, failedAt)
    else
      Invoke(s, threshold, outcome, failedAt)
  }

  /** The `try` block of `call`: run the operation, then book its outcome. */
  function Invoke<T>(s: Snapshot, threshold: int, outcome: Outcome<T>, failedAt: real): CallStep<T> {
    match outcome
    case Success(v) => CallStep(AfterSuccess(s), Returned(v), true)
    case Failure(m) => CallStep(AfterFailure(s, threshold, failedAt), Raised(m), true)
  }

  /** Every transition keeps `OpenInvariant`. */
  lemma TransitionsKeepOpenInvariant<T>(s: Snapshot, threshold: int, timeout: int, outcome: Outcome<T>,
                                        now: real, failedAt: real)
    requires OpenInvariant(s, threshold)
    ensures OpenInvariant(AfterSuccess(s), threshold)
    ensures OpenInvariant(AfterFailure(s, threshold, failedAt), threshold)
    ensures OpenInvariant(CallTransition(s, threshold, timeout, outcome, now, failedAt).after, threshold)
  {
  }

  /** While the timeout has not elapsed an open breaker rejects the call: the operation does
      not run and no field changes. */
  lemma OpenRejectsBeforeTimeout<T>(s: Snapshot, threshold: int, timeout: int, outcome: Outcome<T>,
                                    now: real, failedAt: real)
    requires s.state == Open && s.lastFailureTime.Some?
    requires now - s.lastFailureTime.value < timeout as real
    ensures CallTransition(s, threshold, timeout, outcome, now, failedAt) == CallStep(s, ServiceUnavailable, false)
  {
  }

  /** Once the timeout has elapsed the call goes through as a probe. A successful probe closes
      the breaker; a failing one re-opens it at once, because the count was never reset on the
      way into HALF_OPEN, and refreshes the failure time. */
  lemma ProbeAfterTimeout<T>(s: Snapshot, threshold: int, timeout: int, outcome: Outcome<T>,
                             now: real, failedAt: real)
    requires OpenInvariant(s, threshold)
    requires s.state == Open && now - s.lastFailureTime.value >= timeout as real
    ensures CallTransition(s, threshold, timeout, outcome, now, failedAt).invoked
    ensures outcome.Success? ==>
      CallTransition(s, threshold, timeout, outcome, now, failedAt) ==
        CallStep(Snapshot(0, Closed, s.lastFailureTime), Returned(outcome.value), true)
    ensures outcome.Failure? ==>
      CallTransition(s, threshold, timeout, outcome, now, failedAt) ==
        CallStep(Snapshot(s.failureCount + 1, Open, Some(failedAt)), Raised(outcome.message), true)
  {
  }

  /** `n` consecutive failures, the k-th at time `times[k]`, with no success in between. */
  function Failures(s: Snapshot, threshold: int, times: seq<real>): Snapshot
    decreases |times|
  {
    if |times| == 0 then s else Failures(AfterFailure(s, threshold, times[0]), threshold, times[1..])
  }

  /** Consecutive failures add up one by one, remember the last failure time, and leave the
      breaker OPEN as soon as the count has reached the threshold; below it, the state is
      untouched (so CLOSED with a positive count is reachable). */
  lemma {:induction false} ConsecutiveFailures(s: Snapshot, threshold: int, times: seq<real>)
    requires |times| > 0
    ensures Failures(s, threshold, times).failureCount == s.failureCount + |times|
    ensures Failures(s, threshold, times).lastFailureTime == Some(times[|times| - 1])
    ensures s.failureCount + |times| >= threshold ==> Failures(s, threshold, times).state == Open
    ensures s.failureCount + |times| < threshold ==> Failures(s, threshold, times).state == s.state
    decreases |times|
  {
    var next := AfterFailure(s, threshold, times[0]);
    if |times| > 1 {
      ConsecutiveFailures(next, threshold, times[1..]);
    }
  }

  /** From a fresh breaker, exactly `threshold` failures open it. */
  lemma ThresholdFailuresOpen(threshold: nat, times: seq<real>)
    requires |times| == threshold > 0
    ensures Failures(Fresh, threshold, times).state == Open
    ensures Failures(Fresh, threshold, times).failureCount == threshold
  {
    ConsecutiveFailures(Fresh, threshold, times);
  }

  /** With a threshold of 3: three failures open the breaker; a successful call once the
      timeout has passed closes it with no failures left. */
  lemma RecoveryScenario(timeout: int, t1: real, t2: real, t3: real, now: real, failedAt: real)
    requires now - t3 >= timeout as real
    ensures Failures(Fresh, 3, [t1, t2, t3]).state == Open
    ensures CallTransition(Failures(Fresh, 3, [t1, t2, t3]), 3, timeout, Success(()), now, failedAt)
              == CallStep(Snapshot(0, Closed, Some(t3)), Returned(()), true)
  {
    ConsecutiveFailures(Fresh, 3, [t1, t2, t3]);
  }

  /** What a state file holds: a readable record, any of whose keys may be absent, or a
      file that cannot be read or parsed. */
  datatype StoredFile =
    | Record(failureCount: Option<int>, state: Option<BreakerState>, lastFailureTime: Option<real>)
    | Unreadable

  /** The record `_save_state` writes. A failure time is written only when it is truthy, so
      a time of exactly 0.0 is written as null. */
  function Encode(s: Snapshot): StoredFile {
    Record(Some(s.failureCount), Some(s.state),
           if s.lastFailureTime == Some(0.0) then None else s.lastFailureTime)
  }

  /** `_load_state` on an existing file: missing keys take their defaults, and an unreadable
      file falls back to `_reset_state`. */
  function Decode(f: StoredFile): Snapshot {
    match f
    case Unreadable => Fresh
    case Record(count, state, time) => Snapshot(count.GetOr(0), state.GetOr(Closed), time)
  }

  /** `_load_state`: a missing file also falls back to `_reset_state`. */
  function Load(files: map<string, StoredFile>, name: string): Snapshot {
    if name in files then Decode(files[name]) else Fresh
  }

  /** The files after `_save_state` of `s`: written when the disk accepts the write, left as
      they were when it fails (the temporary file is removed and the target never touched). */
  function Saved(files: map<string, StoredFile>, writable: bool, name: string, s: Snapshot): map<string, StoredFile> {
    if writable then files[name := Encode(s)] else files
  }

  /** A record that `_save_state` wrote loads back as the same three fields. */
  lemma SaveThenLoad(files: map<string, StoredFile>, name: string, s: Snapshot)
    requires s.lastFailureTime != Some(0.0)
    ensures Load(Saved(files, true, name, s), name) == s
  {
  }

  /** A failure time of exactly 0.0 does not survive the round trip. */
  lemma ZeroFailureTimeIsLost(files: map<string, StoredFile>, name: string, count: int)
    ensures Load(Saved(files, true, name, Snapshot(count, Open, Some(0.0))), name).lastFailureTime == None
  {
  }

  /** A missing or unreadable state file loads as a fresh breaker. */
  lemma LoadFallsBackToFresh(files: map<string, StoredFile>, name: string)
    requires name !in files || files[name] == Unreadable
    ensures Load(files, name) == Fresh
  {
  }

  /** The directory of state files, shared by every breaker built over it. `writable` says
      whether writes currently succeed. */
  class StateStore {
    var files: map<string, StoredFile>
    var writable: bool

    constructor (files: map<string, StoredFile>, writable: bool)
      ensures this.files == files && this.writable == writable
    {
      this.files := files;
      this.writable := writable;
    }
  }

  class CircuitBreaker {
    const name: string
    const failureThreshold: int
    const timeout: int
    const store: StateStore
    var failureCount: int
    var state: BreakerState
    var lastFailureTime: Option<real>

    function Current(): Snapshot
      reads this
    {
      Snapshot(failureCount, state, lastFailureTime)
    }

    /** `CircuitBreaker(name, failure_threshold, timeout_seconds)`: the state comes from the
        store. */
    constructor (name: string, failureThreshold: int, timeout: int, store: StateStore)
      ensures this.name == name && this.failureThreshold == failureThreshold
      ensures this.timeout == timeout && this.store == store
      ensures Current() == Load(store.files, name)
    {
      this.name := name;
      this.failureThreshold := failureThreshold;
      this.timeout := timeout;
      this.store := store;
      new;
      LoadState();
    }

    /** `_reset_state` */
    method ResetState()
      modifies this
      ensures Current() == Fresh
    {
      failureCount := 0;
      lastFailureTime := None;
      state := Closed;
    }

    /** `_load_state` */
    method LoadState()
      modifies this
      ensures Current() == Load(store.files, name)
    {
      if name in store.files && store.files[name].Record? {
        var record := store.files[name];
        failureCount := record.failureCount.GetOr(0);
        state := record.state.GetOr(Closed);
        lastFailureTime := record.lastFailureTime;
      } else {
        ResetState();
      }
    }

    /** `_save_state` */
    method SaveState()
      modifies store
      ensures store.files == Saved(old(store.files), old(store.writable), name, Current())
      ensures store.writable == old(store.writable)
    {
      if store.writable {
        store.files := store.files[name := Encode(Current())];
      }
    }

    /** `on_success`: from any state, zero failures and CLOSED; the failure time stays. */
    method OnSuccess()
      modifies this, store
      ensures failureCount == 0 && state == Closed && lastFailureTime == old(lastFailureTime)
      ensures store.files == Saved(old(store.files), old(store.writable), name, Current())
      ensures store.writable == old(store.writable)
    {
      failureCount := 0;
      state := Closed;
      SaveState();
    }

    /** `on_failure` at clock reading `now`: one more failure, recorded at `now`; OPEN once the
        count reaches the threshold, the state untouched below it. */
    method OnFailure(now: real)
      modifies this, store
      ensures failureCount == old(failureCount) + 1 && lastFailureTime == Some(now)
      ensures state == if failureCount >= failureThreshold then Open else old(state)
      ensures store.files == Saved(old(store.files), old(store.writable), name, Current())
      ensures store.writable == old(store.writable)
    {
      failureCount := failureCount + 1;
      lastFailureTime := Some(now);
      if failureCount >= failureThreshold {
        state := Open;
      }
      SaveState();
    }

    /** `call(func)`, where `func` would produce `outcome`: the gate reads the clock as `now`
        and `on_failure` reads it as `failedAt`. The state is saved exactly when `func` ran. */
    method Call<T>(outcome: Outcome<T>, now: real, failedAt: real) returns (result: CallResult<T>, invoked: bool)
      modifies this, store
      ensures CallStep(Current(), result, invoked) ==
                CallTransition(old(Current()), failureThreshold, timeout, outcome, now, failedAt)
      ensures store.files == if invoked then Saved(old(store.files), old(store.writable), name, Current())
                             else old(store.files)
      ensures store.writable == old(store.writable)
    {
      if state == Open {
        if lastFailureTime.None? {
          return MissingFailureTime, false;
        }
        if now - lastFailureTime.value < timeout as real {
          return ServiceUnavailable, false;
        }
        state := HalfOpen;
      }
      invoked := true;
      match outcome {
        case Success(v) =>
          OnSuccess();
          result := Returned(v);
        case Failure(m) =>
          OnFailure(failedAt);
          result := Raised(m);
      }
    }
  }

  /** Persistence across a restart: a breaker built over the same store after another one
      recorded a failure sees exactly that other breaker's fields. */
  method ReloadAfterFailure(store: StateStore, name: string, threshold: int, timeout: int, now: real)
    returns (first: CircuitBreaker, second: CircuitBreaker)
    requires store.writable && now != 0.0
    modifies store
    ensures second.Current() == first.Current()
    ensures first.Current() == AfterFailure(Load(old(store.files), name), threshold, now)
  {
    first := new CircuitBreaker(name, threshold, timeout, store);
    first.OnFailure(now);
    second := new CircuitBreaker(name, threshold, timeout, store);
    SaveThenLoad(old(store.files), name, first.Current());
  }
}
