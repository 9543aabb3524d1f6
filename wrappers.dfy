/** Option and Result, the two failure-carrying datatypes the model uses for
    PHP's `??` defaults and for exceptions. */
module Wrappers {

  datatype Option<+T> = None | Some(value: T) {
    /** The value, or `default` when absent (PHP's `$x ?? $default`). */
    function GetOr(default: T): T {
      match this
      case Some(v) => v
      case None => default
    }
  }

  /** `Failure(message)` stands for a thrown exception carrying `message`. */
  datatype Result<+R, +E> = Success(value: R) | Failure(error: E)
}
