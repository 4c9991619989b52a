/** Optional values and results (JavaScript's `undefined` and thrown errors). */
module Wrappers {
  datatype Option<T> = None | Some(value: T)

  datatype Result<T, E> = Ok(value: T) | Err(error: E)
}
