/** Option and Result, the two failure-carrying values the model uses in place of
    JavaScript's `undefined` and of thrown exceptions. */
module Wrappers {

  /** `None` stands for a field that is absent (`undefined` or `null`) in a JSON body. */
  datatype Option<+T> = None | Some(value: T) {
    function GetOr(default: T): T {
      match this
      case Some(v) => v
      case None => default
    }
  }

  /** The outcome of an operation that either produces a value or fails. */
  datatype Result<+R, +E> = Ok(value: R) | Err(error: E)
}
