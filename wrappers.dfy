/** Option and Result values, used for the source's optional strings and for
    the error paths that the Go code ends with a fatal log. */
module Wrappers {

  datatype Option<+T> = None | Some(value: T)

  datatype Result<+T, +E> = Ok(value: T) | Err(error: E)
}
