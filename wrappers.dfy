/** `Option` and `Result`, shared by the other modules. */
module Wrappers {

  /** A value that may be absent (a dictionary miss, an unparsable integer, a failed reduction). */
  datatype Option<T> = None | Some(value: T)

  /** Either a value or the message of the exception the source raises instead. */
  datatype Result<T, E> = Success(value: T) | Failure(error: E)
}
