/** Optional values and error-carrying results, used wherever the app either
    finds nothing (a missing storage key, an unparseable number) or rejects
    an input with an alert. */
module Wrappers {

  datatype Option<+T> = None | Some(value: T)

  datatype Result<+T, +E> = Ok(value: T) | Err(error: E)
}
