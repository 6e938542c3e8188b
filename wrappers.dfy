/** Python's `None`-or-value and raise-or-return, as datatypes. */
module Wrappers {

  /** A value that may be Python's `None`, or a dictionary key that may be absent. */
  datatype Option<+T> = None | Some(value: T) {
    function GetOr(default: T): T {
      match this
      case Some(v) => v
      case None => default
    }
  }

  /** The outcome of a call that either returns a value or raises. */
  datatype Result<+T, +E> = Success(value: T) | Failure(error: E)
}
