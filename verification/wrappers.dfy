/** Failure-carrying datatypes used where a script either returns `None`
    or raises instead of producing a value. */
module Wrappers {

  /** Python's `None`-or-value. */
  datatype Option<+T> = None | Some(value: T) {
    function GetOr(default: T): T {
      match this
      case Some(v) => v
      case None => default
    }
  }

  /** A computation that either succeeds or raises the named Python error. */
  datatype Result<+T> = Success(value: T) | Failure(error: string)
}
