/** Optional values and results with an error, for the operations that the
    scripts abort by raising. */
module Wrappers {

  datatype Option<T> = None | Some(value: T)

  datatype Result<T, E> = Ok(value: T) | Err(error: E)
}
