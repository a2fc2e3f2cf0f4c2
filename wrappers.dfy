/** Option and Result, used for Python's `None` and for raised exceptions. */
module Wrappers {

  datatype Option<+T> = None | Some(value: T)

  /** `Ok(v)` is a normal return; `Err(e)` is an exception `e` propagating to the caller. */
  datatype Result<+T, +E> = Ok(value: T) | Err(error: E)
}
