/** Option and Result values used for JavaScript's `undefined` and for the
    commands' error paths (thrown strings and rejected promises). */
module Wrappers {

  datatype Option<+T> = None | Some(value: T)

  datatype Result<+R, +E> = Ok(value: R) | Err(error: E)

  /** The outcome of a command's `validate`: `true`, or the message it returns. */
  datatype Validation = Valid | Invalid(message: string)
}
