/** Option and Result, used for Python's `Optional[...]` fields and for
    construction that either yields a record or raises a validation error. */
module Wrappers {

  datatype Option<+T> = None | Some(value: T)

  datatype Result<+T, +E> = Ok(value: T) | Err(error: E)
}
