/** Optional values and results with an error, the model's stand-ins for
    JavaScript's `null`/`undefined` and for a thrown exception. */
module Wrappers {

  /** `None` plays the part of `null` or `undefined`. */
  datatype Option<+T> = None | Some(value: T) {

    /** The value, or a default when there is none. */
    function GetOr(default: T): T {
      match this
      case Some(v) => v
      case None => default
    }
  }

  /** `Failure` plays the part of an exception thrown by a callee. */
  datatype Result<+R, +E> = Success(value: R) | Failure(error: E)
}
