/** Option and Result, the value-level stand-ins for Python's `None` and for
    the exceptions the routes catch and turn into HTTP errors. */
module Wrappers {

  datatype Option<+T> = None | Some(value: T)

  datatype Result<+R, +E> = Ok(value: R) | Err(error: E)
}
