/** Optional values and results shared by every module of the model. */
module Wrappers {

  /** A JavaScript `T | undefined`: `None` is `undefined`. */
  datatype Option<+T> = None | Some(value: T) {

    /** The wrapped value, or `default` when absent (the `?? default` of the source). */
    function GetOr(default: T): T {
      match this
      case Some(v) => v
      case None => default
    }
  }

  /** The outcome of an operation that may throw: `Failure` carries the thrown error. */
  datatype Result<+R, +E> = Success(value: R) | Failure(error: E)
}
