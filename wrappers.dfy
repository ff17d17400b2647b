/** Failure-carrying results shared by every module of the model. */
module Wrappers {
  datatype Option<+T> = None | Some(value: T)

  /** What a Python call either returns or raises. */
  datatype Result<+T, +E> = Ok(value: T) | Err(error: E)
}
