/** Failure-carrying wrappers shared by every module of the model. */
module Wrappers {

  /** An optional value: Python's `Optional[T]`, where `None` is "unset". */
  datatype Option<+T> = None | Some(value: T)

  /** The outcome of an operation that may raise: `Failed` carries the exception's message. */
  datatype Result<+T> = Ok(value: T) | Failed(error: string)
}
