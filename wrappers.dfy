/** Option and Result, the shapes in which the model returns Go's `(value, error)` pairs. */
module Wrappers {

  datatype Option<+T> = None | Some(value: T)

  /** `Success(v)` is Go's `(v, nil)`; `Failure(e)` is `(zero, e)`. */
  datatype Result<+T, +E> = Success(value: T) | Failure(error: E)
}
