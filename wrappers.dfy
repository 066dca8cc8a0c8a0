/** Option and Result, shared by the scheduler model and the turn history. */
module Wrappers {

  datatype Option<+T> = None | Some(value: T)

  /** A fallible value: `Ok` carries the value, `Err` the error that aborted the computation. */
  datatype Result<+T, +E> = Ok(value: T) | Err(error: E)
}
