/** Option and Result, used for the values the source leaves undefined (NaN thresholds,
    missing lookups) and for the exceptions it raises. */
module Wrappers {

  datatype Option<+T> = None | Some(value: T)

  datatype Result<+R, +E> = Ok(value: R) | Err(error: E)
}
