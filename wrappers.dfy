/** Option and Result, used for the JavaScript values that may be null or
    undefined and for the errors the webhook throws. */
module Wrappers {

  datatype Option<+T> = None | Some(value: T)

  datatype Result<+T, +E> = Ok(value: T) | Err(error: E)
}
