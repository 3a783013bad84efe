/** Option and Result values for absent fields and failing operations. */
module Wrappers {

  /** A value that may be missing: `None` stands for JavaScript's `undefined`. */
  datatype Option<+T> = None | Some(value: T) {
    function GetOr(default: T): T {
      match this
      case Some(v) => v
      case None => default
    }
  }

  /** The outcome of an operation that either produces a value or reports an error. */
  datatype Result<+R, +E> = Success(value: R) | Failure(error: E)
}
