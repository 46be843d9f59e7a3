/** Option and Result: absent JavaScript values and thrown errors, as values. */
module Wrappers {

  datatype Option<+T> = None | Some(value: T)

  /** `Err` carries the message of the JavaScript `Error` the source would throw. */
  datatype Result<+T> = Ok(value: T) | Err(error: string)

  /** A check that either passes or fails with an error message. */
  datatype Outcome = Pass | Fail(error: string)
}
