/** Small failure-carrying wrappers shared by the other modules. */
module Common {

  /** A value that may be absent: a header that was not sent, a user that was not found. */
  datatype Option<+T> = None | Some(value: T)

  /** The outcome of an operation that can fail with an error message. */
  datatype Result<+T> = Success(value: T) | Failure(error: string)
}
