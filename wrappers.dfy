/** Option and Result, used for the nullable strings and the protector's failure path. */
module Wrappers {

  /** A C# nullable reference: `None` stands for `null`. */
  datatype Option<+T> = None | Some(value: T)

  /** The outcome of a call that may throw: `Failure` carries what was thrown. */
  datatype Result<+R, +E> = Success(value: R) | Failure(error: E)
}
