/** The option and result types used for the scripts' optional arguments and errors. */
module Wrappers {

  datatype Option<+T> = None | Some(value: T)

  /** A value, or the message of the exception the script would raise instead. */
  datatype Result<+T, +E> = Success(value: T) | Failure(error: E)

  /** A step that returns nothing, or the message of the exception it raised. */
  datatype Outcome<+E> = Pass | Fail(error: E)
}
