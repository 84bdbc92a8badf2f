/** Optional values and results with an error, shared by the other modules. */
module Wrappers {

  datatype Option<+T> = None | Some(value: T) {
    /** The value held, or `default` when there is none. */
    function GetOr(default: T): T {
      match this
      case Some(v) => v
      case None => default
    }
  }

  datatype Result<+R, +E> = Success(value: R) | Failure(error: E)
}
