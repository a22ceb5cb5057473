/** Option and Result values shared by every module of the model. */
module Wrappers {

  /** An engaged (`Some`) or disengaged (`None`) value. */
  datatype Option<T> = None | Some(value: T)

  /** The only error the core raises: `bad_optional_access`. */
  datatype Error = BadOptionalAccess

  /** The outcome of a strict access such as `value()`. */
  datatype Result<T> = Success(value: T) | Failure(error: Error)
}
