/** Optional values and results, for the code paths where the scene code throws or
    produces no usable number. */
module Wrappers {

  datatype Option<+T> = None | Some(value: T)

  datatype Result<+T, +E> = Ok(value: T) | Err(error: E)
}
