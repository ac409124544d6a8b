/** Failure-carrying values shared by every module of the model. */
module Wrappers {

  /** A value that may be absent: JavaScript's `undefined`/`null` for an optional field. */
  datatype Option<T> = None | Some(value: T) {
    function GetOr(default: T): T {
      match this
      case Some(v) => v
      case None => default
    }
  }

  /** The outcome of an operation that either returns a value or throws. */
  datatype Result<T, E> = Ok(value: T) | Err(error: E)

  /** A value thrown in JavaScript: an `Error` (whose message the callers show) or anything else. */
  datatype Thrown = ErrorValue(message: string) | NonError

  /** `error instanceof Error ? error.message : fallback`. */
  function MessageOr(e: Thrown, fallback: string): string {
    match e
    case ErrorValue(m) => m
    case NonError => fallback
  }
}
