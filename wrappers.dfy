/** Option and Result: the error returns of the modelled code (Go's `(v, err)` pairs,
    Python exceptions) become values of these types. */
module Wrappers {

  datatype Option<+T> = None | Some(value: T)

  datatype Result<+R, +E> = Success(value: R) | Failure(error: E)
}
