/** Option and Result, shared by the whole model. */
module Wrappers {

  /** A value that may be absent: JavaScript's `null`/`undefined`, Java's `Optional`. */
  datatype Option<+T> = None | Some(value: T) {
    function GetOr(default: T): T {
      match this
      case Some(v) => v
      case None => default
    }
  }

  /** The outcome of an operation that may throw. */
  datatype Result<+T, +E> = Success(value: T) | Failure(error: E)
}
