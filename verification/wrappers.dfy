/** Failure-carrying result types shared by every module of the model. */
module Wrappers {

  /** An optional value: a nullable column, a missing form field or a `None` return. */
  datatype Option<+T> = None | Some(value: T)

  /** The outcome of an operation that the source may abort by raising an exception. */
  datatype Result<+T> = Ok(value: T) | Err(error: string)
}
