/** Optional values and results with an error, as used across the model. */
module Wrappers {

  datatype Option<+T> = None | Some(value: T) {
    /** `d.get(key, default)` once the lookup has been made. */
    function GetOr(default: T): T {
      match this
      case Some(v) => v
      case None => default
    }
  }

  datatype Result<+T, +E> = Success(value: T) | Failure(error: E)
}
