/** Value types shared by the model. */
module Wrappers {

  /** A value that may be absent: TypeScript's `T | null` / `T | undefined`, Python's `Optional[T]`. */
  datatype Option<+T> = None | Some(value: T)

  /** The outcome of a server operation that can fail with an error value. */
  datatype Result<+R, +E> = Success(value: R) | Failure(error: E)
}
