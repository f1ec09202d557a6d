/** Failure-carrying values shared by every component of the model. */
module Outcomes {

  /** A value that may be absent: JavaScript's `undefined` / `null` / a missing key. */
  datatype Option<+T> = None | Some(value: T) {

    /** The wrapped value, or `default` when absent. */
    function GetOr(default: T): (r: T)
      ensures Some? ==> r == value
      ensures None? ==> r == default
    {
      match this
      case Some(v) => v
      case None => default
    }
  }

  /** The outcome of an operation that may throw: `Success` carries the returned value,
      `Failure` the error that would have been thrown. */
  datatype Result<+T, +E> = Success(value: T) | Failure(error: E)
}
