/** Option and Result, the failure-carrying values used across the model. */
module Wrappers {

  /** A value that may be missing: JavaScript's `undefined`, `NaN` or "not found". */
  datatype Option<+T> = None | Some(value: T) {

    /** The value, or `default` when it is missing. */
    function GetOr(default: T): T {
      match this
      case Some(v) => v
      case None => default
    }
  }

  /** The outcome of an operation that the source lets throw. */
  datatype Result<+T, +E> = Success(value: T) | Failure(error: E)
}
