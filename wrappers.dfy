/** Option and Result values used in place of JavaScript's undefined and thrown errors. */
module Wrappers {

  datatype Option<+T> = None | Some(value: T)

  /** The outcome of a step that may throw: the value, or the message of the thrown error. */
  datatype Result<+T> = Ok(value: T) | Err(error: string)
}
