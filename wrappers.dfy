/** Option and Result values standing in for the source's nullable references and thrown exceptions. */
module Wrappers {

  /** A value that may be absent (a C# `null` or a Python `None`). */
  datatype Option<+T> = None | Some(value: T)

  /** Either a value or the error that the source would throw instead of returning. */
  datatype Result<+R, +E> = Success(value: R) | Failure(error: E)
}
