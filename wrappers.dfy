/** Option and Result, used for the values the source may not have (a missing raycast hit,
    a null reference) and for the exceptions it throws. */
module Wrappers {
  datatype Option<+T> = None | Some(value: T)

  datatype Result<+T, +E> = Ok(value: T) | Err(error: E)
}
