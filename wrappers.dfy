/** Option and Result, used for Go's `(value, error)` returns and for values that may be nil. */
module Wrappers {

  /** `None` stands for a nil error or a value that could not be decoded. */
  datatype Option<+T> = None | Some(value: T)

  /** A Go `(T, error)` return: exactly one of the two is meaningful. */
  datatype Result<+T> = Ok(value: T) | Err(error: string)
}
