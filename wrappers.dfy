/** Failure-carrying values shared by every module of the model. */
module Wrappers {

  /** Python's `None` or a present value. */
  datatype Option<+T> = None | Some(value: T)

  /** The value a Python call returns, or the exception it raises (its message). */
  datatype Result<+T> = Success(value: T) | Failure(error: string)
}
