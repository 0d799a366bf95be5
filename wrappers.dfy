/** Optional values (Python's `None` versus a present value) and results that may carry a raised error's message. */
module Wrappers {
  datatype Option<+T> = None | Some(value: T)

  datatype Result<+T> = Ok(value: T) | Err(message: string)
}
