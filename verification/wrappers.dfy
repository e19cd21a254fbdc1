/** Optional values and results with an error, used wherever the modelled
    code writes `T?`, `try?` or `throws`. */
module Wrappers {

  datatype Option<+T> = None | Some(value: T)

  datatype Result<+T, +E> = Ok(value: T) | Err(error: E)
}
