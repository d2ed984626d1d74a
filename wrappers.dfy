/** Optional values and results with an error, used wherever the program
    returns `None` or raises an exception that a caller catches. */
module Wrappers {
  datatype Option<T> = None | Some(value: T)

  datatype Result<T, E> = Ok(value: T) | Err(error: E)
}
