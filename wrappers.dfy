/** Option and Result, the two failure-carrying shapes the model needs. */
module Wrappers {

  /** A nullable value: Python's `None` / SQL `NULL` versus a present value. */
  datatype Option<+T> = None | Some(value: T)

  /** A value or an error, standing for a Python function that returns or raises. */
  datatype Result<+T, +E> = Ok(value: T) | Err(error: E)
}
