/** Option and Result, the two shapes of a JavaScript value that may be missing
    (`string | null`) and of an async call that either resolves or throws. */
module Wrappers {

  datatype Option<+T> = None | Some(value: T)

  /** `Err` carries the message of the `Error` the code throws. */
  datatype Result<+T> = Ok(value: T) | Err(message: string)
}
