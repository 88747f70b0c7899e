/** Optional values and error-carrying results, used where the source returns
    None or raises an exception. */
module Wrappers {

  datatype Option<+T> = None | Some(value: T)

  /** `Err` carries the message of an exception the source lets propagate. */
  datatype Result<+T> = Ok(value: T) | Err(error: string)
}
