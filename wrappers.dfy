/** Option and Result values: JavaScript's `null`/absent values and thrown errors. */
module Wrappers {

  /** `None` stands for JavaScript's `null` (or an absent value). */
  datatype Option<+T> = None | Some(value: T) {
    function GetOr(default: T): T {
      match this
      case Some(v) => v
      case None => default
    }
  }

  /** The outcome of an operation that may throw: `Failure` carries the error. */
  datatype Result<+R, +E> = Success(value: R) | Failure(error: E)
}
