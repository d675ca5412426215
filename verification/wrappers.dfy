/** Small value wrappers shared by the other modules. */
module Wrappers {

  /** A value that may be absent: Python's `Optional[T]`, with `None` for absence. */
  datatype Option<+T> = None | Some(value: T) {

    /** The wrapped value, or `default` when there is none (Python's `dict.get(key, default)`). */
    function GetOr(default: T): T {
      match this
      case Some(v) => v
      case None => default
    }
  }

  /** What one invocation of a wrapped operation did: it returned a value or raised an
      exception, of which only the message (`str(e)`) matters to the callers modelled here. */
  datatype Outcome<+T> = Success(value: T) | Failure(message: string)
}
