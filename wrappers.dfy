/** Optional values and error-or-value results, standing for JavaScript's
    `null`/`undefined` and for the error-first callbacks of the issue API. */
module Wrappers {

  datatype Option<+T> = None | Some(value: T) {
    function GetOr(default: T): T {
      match this
      case Some(v) => v
      case None => default
    }
  }

  datatype Result<+R, +E> = Success(value: R) | Failure(error: E)
}
