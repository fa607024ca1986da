/** Optional values and results with an error, shared by the other modules. */
module Wrappers {

  /** A value that may be absent: an omitted prop, or a missing provider. */
  datatype Option<+T> = None | Some(value: T) {
    /** The value when present, otherwise `default`. */
    function GetOr(default: T): (r: T)
      ensures Some? ==> r == value
      ensures None? ==> r == default
    {
      match this
      case Some(v) => v
      case None => default
    }
  }

  /** The outcome of an operation that may throw. */
  datatype Result<+T, +E> = Ok(value: T) | Err(error: E)
}
