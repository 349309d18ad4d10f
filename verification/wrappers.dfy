/** Option and Result, used for Java's nullable values and
    for operations that can throw. */
module Wrappers {

  datatype Option<+T> = None | Some(value: T)

  /** Success carries the normal return value, Failure what would be thrown. */
  datatype Result<+R, +E> = Success(value: R) | Failure(error: E)
}
