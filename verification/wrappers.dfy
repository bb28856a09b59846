/** Option and Result, used for absent values and for the error path of the parsers. */
module Wrappers {

  /** A value that may be missing, in place of Python's `None`. */
  datatype Option<+T> = None | Some(value: T)

  /** Either a returned value or a raised error carrying its message. */
  datatype Result<+R, +E> = Success(value: R) | Failure(error: E)
}
