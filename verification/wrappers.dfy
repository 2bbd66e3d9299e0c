/** Failure-compatible wrappers used throughout the model: an optional value
    (a JavaScript field that may be `undefined`/`null`) and a result that is
    either a value or an error (a JavaScript function that may throw). */
module Wrappers {

  datatype Option<+T> = None | Some(value: T) {

    /** The contained value, or `default` when absent. */
    function GetOr(default: T): (r: T)
      ensures Some? ==> r == value
      ensures None? ==> r == default
    {
      match this
      case Some(v) => v
      case None => default
    }
  }

  datatype Result<+T, +E> = Success(value: T) | Failure(error: E)
}
