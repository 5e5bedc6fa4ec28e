/** Option and Result, the two failure-carrying shapes the rest of the model uses
    for missing values (TypeScript `undefined`, Go's comma-ok) and error returns. */
module Wrappers {

  datatype Option<+T> = None | Some(value: T)

  datatype Result<+T, +E> = Ok(value: T) | Err(error: E)
}
