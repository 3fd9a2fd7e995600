/** An optional value, and a value or an error. */
module Wrappers {

  /** `None` stands for a Python `None` result (an incomplete record, an absent key). */
  datatype Option<+T> = None | Some(value: T)

  /** `Failure` stands for an exception that the source raises and does not catch. */
  datatype Result<+T, +E> = Success(value: T) | Failure(error: E)
}
