/** Option and Result, for values that may be absent and operations that may fail. */
module Wrappers {

  /** `None` stands for JavaScript's `undefined`/`null`. */
  datatype Option<+T> = None | Some(value: T)

  /** `Failure` stands for an exception thrown by the operation. */
  datatype Result<+T, +E> = Success(value: T) | Failure(error: E)
}
