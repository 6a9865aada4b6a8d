/** Go's two-valued returns: a value that may be absent, and a value or an error. */
module Outcomes {
  datatype Option<+T> = None | Some(value: T)

  datatype Result<+T> = Ok(value: T) | Err(error: string)
}
