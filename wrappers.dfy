/** Optional values and results with an error, standing in for Python's
    `None` and for exceptions raised by pandas and numpy. */
module Wrappers {

  datatype Option<+T> = None | Some(value: T)

  datatype Result<+R, +E> = Ok(value: R) | Err(error: E)
}
