/** The position lock: an exclusive, non-blocking file lock polled every 100 ms until it
    is acquired or the timeout has passed, held while the guarded block runs, and released
    and closed on every way out.

    The lock file is an object with two flags. The k-th non-blocking lock attempt (from 0)
    succeeds when `tryLock(k)` holds; `start` is the clock reading taken before the first
    attempt, and `clock(k)` the reading taken after attempt k failed. The guarded block is
    represented by its outcome. */
module PositionLock {
  import opened Wrappers

  class LockFile {
    var isOpen: bool
    var held: bool

    constructor ()
      ensures !isOpen && !held
    {
      isOpen := false;
      held := false;
    }
  }

  /** How `with position_lock(timeout): body` ends. */
  datatype LockResult<T> =
    | Completed(value: T)        // the block ran and finished
    | BodyFailed(message: string) // the block ran and raised
    | LockTimeout                // `TimeoutError`: the block never ran
    | OpenFailed                 // creating the directory or opening the file raised

  /** What the block's outcome becomes once the lock is held. */
  function BodyResult<T>(body: Outcome<T>): LockResult<T> {
    match body
    case Success(v) => Completed(v)
    case Failure(m) => BodyFailed(m)
  }

  /** With at least 100 ms between polls, a reading that has not yet passed the timeout
      bounds the number of polls made so far. */
  lemma PollBound(polls: nat, start: real, reading: real, timeout: int)
    requires start + (polls as real) / 10.0 <= reading
    requires reading - start <= timeout as real
    ensures polls <= 10 * timeout
  {
    assert (polls as real) <= 10.0 * (timeout as real);
  }

  method WithPositionLock<T>(f: LockFile, openOk: bool, timeout: int, start: real,
                             tryLock: nat -> bool, clock: nat -> real, body: Outcome<T>)
    returns (r: LockResult<T>, polls: nat)
    requires !f.isOpen && !f.held
    requires forall k: nat :: start + (k as real) / 10.0 <= clock(k)
    modifies f
    ensures !f.isOpen && !f.held
    ensures !openOk ==> r == OpenFailed && polls == 0
    ensures openOk ==> polls >= 1
    ensures forall k: nat :: k + 1 < polls ==> !tryLock(k) && clock(k) - start <= timeout as real
    ensures openOk ==>
              (r == LockTimeout <==> !tryLock(polls - 1)) &&
              (r == LockTimeout ==> clock(polls - 1) - start > timeout as real) &&
              (r != LockTimeout ==> r == BodyResult(body))
    ensures openOk && timeout < 0 ==> polls == 1
    ensures openOk && timeout >= 0 ==> polls <= 10 * timeout + 2
  {
    if !openOk {
      return OpenFailed, 0;
    }
    f.isOpen := true;
    polls := 0;
    while true
      invariant f.isOpen && !f.held
      invariant forall k: nat :: k < polls ==> !tryLock(k) && clock(k) - start <= timeout as real
      invariant timeout < 0 ==> polls == 0
      invariant timeout >= 0 ==> polls <= 10 * timeout + 1
      decreases 10 * timeout + 1 - polls
    {
      if tryLock(polls) {
        f.held := true;
        polls := polls + 1;
        break;
      }
      if clock(polls) - start > timeout as real {
        polls := polls + 1;
        f.isOpen := false;
        return LockTimeout, polls;
      }
      PollBound(polls, start, clock(polls), timeout);
      polls := polls + 1;
    }
    r := BodyResult(body);
    f.held := false;
    f.isOpen := false;
  }
}
