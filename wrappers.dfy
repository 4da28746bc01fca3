/** Failure-carrying results shared by the track model and the library model. */
module Wrappers {

  /** A value that may be absent (a file that does not exist, for one). */
  datatype Option<+T> = None | Some(value: T)

  /** The outcome of an operation that can fail with an error of type E. */
  datatype Result<+T, +E> = Ok(value: T) | Err(error: E)
}
