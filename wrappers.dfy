/** Option and Result, used for JavaScript's NaN-or-number and for the
    handlers' "forward these parameters or answer with an error" decisions. */
module Wrappers {

  datatype Option<+T> = None | Some(value: T)

  datatype Result<+T, +E> = Ok(value: T) | Err(error: E)
}
