/** Option and Result, the two outcome shapes used throughout the model. */
module Wrappers {

  /** A value that may be absent, e.g. a key missing from a JSON object. */
  datatype Option<+T> = None | Some(value: T)

  /** Either a computed value or the error the request ends with. */
  datatype Result<+T, +E> = Ok(value: T) | Err(error: E)
}
