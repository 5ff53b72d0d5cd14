/** Option and Result: JavaScript's `null`/`undefined` and thrown errors, as values. */
module Wrappers {

  datatype Option<+T> = None | Some(value: T) {

    /** `x ?? d` */
    function GetOr(default: T): T {
      match this
      case Some(v) => v
      case None => default
    }
  }

  datatype Result<+R, +E> = Success(value: R) | Failure(error: E)
}
