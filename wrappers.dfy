/** Optional values, results and outcomes: Python's None, return-or-raise and
    raise-or-return-None, made explicit. */
module Wrappers {

  datatype Option<+T> = None | Some(value: T)

  /** A value, or the exception the Python code would raise instead. */
  datatype Result<+T, +E> = Ok(value: T) | Err(error: E)

  /** A procedure that returns None, or raises. */
  datatype Outcome<+E> = Pass | Fail(error: E)
}
