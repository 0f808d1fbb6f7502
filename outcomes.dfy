/** Option and Result, the two wrappers every other module uses for absent
    values and error returns. */
module Outcomes {

  datatype Option<+T> = None | Some(value: T)

  /** A Go `(value, error)` pair that is either a value or an error. */
  datatype Result<+T, +E> = Ok(value: T) | Err(error: E)
}
