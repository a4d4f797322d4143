/** Option and Result, the stock wrappers used for values that may be absent and for error returns. */
module Wrappers {

  datatype Option<+T> = None | Some(value: T) {
    /** Returns the wrapped value, or `default` when there is none (JavaScript's `x ?? default`). */
    function GetOr(default: T): T {
      match this
      case Some(v) => v
      case None => default
    }
  }

  datatype Result<+R, +E> = Success(value: R) | Failure(error: E)
}
