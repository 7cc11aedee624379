/** Optional values and error-carrying results shared by every module. */
module Wrappers {

  /** A nullable value: a NULL column, a missing key, an unset field. */
  datatype Option<+T> = None | Some(value: T) {
    function GetOr(default: T): T {
      match this
      case Some(v) => v
      case None => default
    }
  }

  /** The outcome of an operation that can fail with an error of type E. */
  datatype Result<+T, +E> = Success(value: T) | Failure(error: E)
}
