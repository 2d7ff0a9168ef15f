/** Optional values (Go's nil pointers) and results (Go's `(value, error)` pairs). */
module Wrappers {

  datatype Option<+T> = None | Some(value: T) {
    /** The value, or a default when absent. */
    function GetOr(default: T): T {
      match this
      case Some(v) => v
      case None => default
    }
  }

  datatype Result<+R, +E> = Success(value: R) | Failure(error: E)
}
