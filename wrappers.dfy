/** Option and Result values for the "absent" and "threw" outcomes of the modelled code. */
module Wrappers {

  /** `undefined` (or a missing map entry) versus a present value. */
  datatype Option<+T> = None | Some(value: T)

  /** A call that either resolves with a value or rejects with an error. */
  datatype Result<+T, +E> = Success(value: T) | Failure(error: E)
}
