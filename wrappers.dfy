/** Option and Result values used where the handler's Python code returns
    `None` or raises. */
module Wrappers {

  datatype Option<+T> = None | Some(value: T)

  /** `Ok` is a normal return; `Err` is an exception the caller has to map to
      a response. */
  datatype Result<+T, +E> = Ok(value: T) | Err(error: E)
}
