/** Failure-compatible result types shared by the decoder and the response cache. */
module Wrappers {

  datatype Option<+T> = None | Some(value: T) {
    function GetOr(default: T): T {
      match this
      case Some(v) => v
      case None => default
    }
  }

  /** The two error kinds of the core: a token stream that does not fit the
      positional grammar, and request parameters that cannot be serialized. */
  datatype Error = MalformedScript | SerializationFailure

  datatype Result<+T> = Success(value: T) | Failure(error: Error) {
    predicate IsFailure() {
      Failure?
    }

    function PropagateFailure<U>(): Result<U>
      requires Failure?
    {
      Failure(error)
    }

    function Extract(): T
      requires Success?
    {
      value
    }
  }

  /** An error return without a value (Go's bare `error`). */
  datatype Outcome = Pass | Fail(error: Error)
}
