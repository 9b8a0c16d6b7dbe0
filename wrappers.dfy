/** Optional values and results: JavaScript's `undefined` / missing fields and thrown errors. */
module Wrappers {

  datatype Option<+T> = None | Some(value: T) {
    /** The value, or a default when absent (JavaScript's `x ?? d` for a missing field). */
    function GetOr(default: T): T {
      match this
      case Some(v) => v
      case None => default
    }
  }

  /** A computation that either produced a value or threw an error carrying a message. */
  datatype Result<+R, +E> = Success(value: R) | Failure(error: E)
}
