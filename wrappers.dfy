/** Optional values and results with an error kind, used where the script
    tests for None or reports an error instead of going on. */
module Wrappers {

  datatype Option<+T> = None | Some(value: T)

  datatype Result<+T, +E> = Ok(value: T) | Err(error: E)
}
