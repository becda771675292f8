/** Optional values and results, standing in for JavaScript's null/undefined and for rejected promises. */
module Wrappers {

  datatype Option<+T> = None | Some(value: T)

  datatype Result<+T, +E> = Ok(value: T) | Err(error: E)
}
