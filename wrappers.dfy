/** Option, Result and Outcome: the shapes in which the model returns Go's
    `(value, error)` pairs and bare `error` results. */
module Wrappers {

  /** A Go value that may be nil. */
  datatype Option<+T> = None | Some(value: T)

  /** A Go `(value, error)` pair: `Ok(v)` when the error is nil, `Err(e)` otherwise. */
  datatype Result<+T, +E> = Ok(value: T) | Err(error: E)

  /** A bare Go `error`: `Pass` for nil. */
  datatype Outcome<+E> = Pass | Fail(error: E)
}
