/** Option and Result values used across the model in place of Go's nil pointers and error returns. */
module Wrappers {

  /** A value that may be missing: Go's nil pointer or the "not found" half of a comma-ok pair. */
  datatype Option<+T> = None | Some(value: T)

  /** A value or an error message: Go's (value, error) result pair. */
  datatype Result<+T> = Success(value: T) | Failure(error: string)
}
