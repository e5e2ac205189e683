/** Result types shared by the kernels: a value or nothing, a value or the error code the caller sees. */
module Outcomes {
  datatype Option<+T> = None | Some(value: T)

  datatype Result<+T, +E> = Ok(value: T) | Err(error: E)
}
