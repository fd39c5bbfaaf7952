/** The optional and error-carrying values shared by every module. */
module Wrappers {

  datatype Option<+T> = None | Some(value: T)

  /** The exception classes the stores raise, without their message texts. */
  datatype Failure =
    | ValueError
    | KeyError
    | PermissionError
    | RuntimeError
    | IntegrityError
    | OverflowError

  datatype Result<+T> = Ok(value: T) | Err(error: Failure)
}
