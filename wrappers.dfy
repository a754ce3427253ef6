/** Optional values and success/failure results, standing in for the
    `undefined`/`null` values and the thrown exceptions of the engine. */
module Wrappers {

  /** A value that may be absent (`undefined` or `null`). */
  datatype Option<+T> = None | Some(value: T) {

    /** The value, or `default` when absent: the `??` operator. */
    function GetOr(default: T): (r: T)
      ensures Some? ==> r == value
      ensures None? ==> r == default
    {
      match this
      case Some(v) => v
      case None => default
    }
  }

  /** The settled state of a promise: resolved with a value or rejected with an error. */
  datatype Result<+T, +E> = Success(value: T) | Failure(error: E)
}
