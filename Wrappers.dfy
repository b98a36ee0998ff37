/** Option and Result, for the source's `undefined` values and thrown errors. */
module Wrappers {

  /** A value that may be absent (`undefined` in the source). */
  datatype Option<+T> = None | Some(value: T) {

    /** The value, or `default` when absent: the source's `x ?? default`. */
    function GetOr(default: T): T
    {
      match this
      case Some(v) => v
      case None => default
    }
  }

  /** The outcome of a call that may throw: a value, or the error it raised. */
  datatype Result<+R, +E> = Success(value: R) | Failure(error: E)
}
