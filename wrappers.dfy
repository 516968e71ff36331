/** Optional values and results with an error branch, used wherever the
    source returns None, raises, or has a nullable value. */
module Wrappers {

  datatype Option<+T> = None | Some(value: T)

  datatype Result<+T, +E> = Ok(value: T) | Err(error: E)
}
