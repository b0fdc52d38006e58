/** Option and Result datatypes for the "no value" and "raised" outcomes of the source. */
module Wrappers {

  /** Python's `None` versus a present value. */
  datatype Option<+T> = None | Some(value: T)

  /** A call that either returns a value or raises an exception (named by `error`). */
  datatype Result<+T> = Ok(value: T) | Err(error: string)
}
