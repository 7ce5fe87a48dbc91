/** Option and Result used by the model. */
module Wrappers {

  /** Python's `None` versus a present value. */
  datatype Option<+T> = None | Some(value: T)

  /** A value, or the classified reason there is none. */
  datatype Result<+R, +E> = Success(value: R) | Failure(error: E)
}
