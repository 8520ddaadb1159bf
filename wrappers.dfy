/** Wrappers used across the model: an optional value
    (JavaScript's `undefined`/`null` versus a value) and a result that is
    either a value or the error a JavaScript function would throw. */
module Wrappers {

  datatype Option<+T> = None | Some(value: T) {

    /** `x ?? fallback`: the value when present, the fallback otherwise. */
    function GetOr(fallback: T): (r: T)
      ensures Some? ==> r == value
      ensures None? ==> r == fallback
    {
      match this
      case Some(v) => v
      case None => fallback
    }
  }

  datatype Result<+T, +E> = Success(value: T) | Failure(error: E)
}
