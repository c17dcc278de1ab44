/** Option and Result: the model's stand-ins for C# nullable values and thrown exceptions. */
module Wrappers {

  /** A value that may be absent (a C# `T?` that may be `null`). */
  datatype Option<+T> = None | Some(value: T)

  /** The outcome of an operation that either returns a value or throws. */
  datatype Result<+R, +E> = Success(value: R) | Failure(error: E)
}
