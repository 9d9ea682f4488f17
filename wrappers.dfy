/** Option and Result, which the model uses in place of null and of thrown exceptions. */
module Wrappers {

  datatype Option<+T> = None | Some(value: T)

  /** A computation that either produced `value` or raised `error`. */
  datatype Result<+R, +E> = Success(value: R) | Failure(error: E)
}
