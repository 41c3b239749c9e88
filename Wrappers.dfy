/** Optional values and results with an error, used for the lookups and
    the failure paths of the store. */
module Wrappers {

  datatype Option<+T> = None | Some(value: T)

  datatype Result<+T, +E> = Ok(value: T) | Err(error: E)
}
