/** Option and Result: the model's stand-ins for Python's None and for raised exceptions. */
module Wrappers {

  datatype Option<+T> = None | Some(value: T)

  datatype Result<+T, +E> = Ok(value: T) | Err(error: E)

  /** An operation that either completes or raises, with nothing to return. */
  datatype Outcome<+E> = Pass | Fail(error: E)
}
