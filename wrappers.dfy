/** Optional values and results: the model's stand-ins for `undefined`/`null` and for thrown errors. */
module Wrappers {

  /** `None` plays the part of `undefined` (or `null`) in a record field or a lookup. */
  datatype Option<+T> = None | Some(value: T) {

    /** The value, or the given default when there is none (the source's `x || d` on non-falsy values). */
    function GetOr(default: T): T {
      match this
      case Some(v) => v
      case None => default
    }
  }

  /** The outcome of something that may throw: a value or the error it threw. */
  datatype Result<+R, +E> = Success(value: R) | Failure(error: E)
}
