/** Optional values and results with an error: nil references and the
    (value, error) returns of the controller. */
module Wrappers {

  datatype Option<+T> = None | Some(value: T)

  datatype Result<+R, +E> = Ok(value: R) | Err(error: E)
}
