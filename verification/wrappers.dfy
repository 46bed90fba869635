/** Failure-compatible wrapper types shared by the emulator modules. */
module Wrappers {

  /** An optional value: stands in for JavaScript's `null`/`undefined`. */
  datatype Option<+T> = None | Some(value: T)

  /** Either a value or the error an operation would have thrown. */
  datatype Result<+R, +E> = Success(value: R) | Failure(error: E)
}
