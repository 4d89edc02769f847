/** Failure-carrying results shared by the resolver and flag models. */
module Wrappers {

  /** A value that may be absent (Go's `nil` pointer or a missing map entry). */
  datatype Option<+T> = None | Some(value: T)

  /** A Go `(value, error)` pair where exactly one side is meaningful. */
  datatype Result<+T, +E> = Ok(value: T) | Err(error: E)
}
