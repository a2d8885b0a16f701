/** Failure-carrying wrapper types shared by the other modules. */
module Wrappers {

  /** A value that may be absent: Go's `nil` map or pointer versus a present one. */
  datatype Option<+T> = None | Some(value: T)

  /** The outcome of an operation that returns either a value or an error message. */
  datatype Result<+T> = Ok(value: T) | Err(message: string)
}
