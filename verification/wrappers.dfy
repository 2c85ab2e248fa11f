/** Failure-carrying values shared by the model's modules. */
module Wrappers {

  /** A value that may be missing, as an optional TypeScript property is. */
  datatype Option<+T> = None | Some(value: T)

  /** The outcome of an operation that either yields a value or throws. */
  datatype Result<+T, +E> = Success(value: T) | Failure(error: E)
}
