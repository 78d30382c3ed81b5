/** Option and Result, the two failure-carrying shapes used throughout the model. */
module Wrappers {
  datatype Option<+T> = None | Some(value: T)

  /** A Python call that either returns a value or raises an exception described by `error`. */
  datatype Result<+T, +E> = Ok(value: T) | Err(error: E)
}
