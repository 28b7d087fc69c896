/** Optional values and results with an error alternative, used wherever the
    script either produces a value or takes an error path. */
module Wrappers {

  datatype Option<+T> = None | Some(value: T)

  datatype Result<+T, +E> = Ok(value: T) | Err(error: E)
}
