/** Option and Result, the two failure-carrying shapes the model needs.
    A thrown `Error` of the source becomes `Err(message)`. */
module Wrappers {

  datatype Option<+T> = None | Some(value: T)

  datatype Result<+T> = Ok(value: T) | Err(error: string)
}
