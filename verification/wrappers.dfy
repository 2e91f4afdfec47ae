/** Optional values and results with an error, as used throughout the model
    for nullable columns and for operations that can fail. */
module Wrappers {

  /** A nullable value: `None` stands for SQL `null` / JavaScript `undefined`. */
  datatype Option<+T> = None | Some(value: T)

  /** The outcome of an operation that either produces a value or reports an error. */
  datatype Result<+T, +E> = Ok(value: T) | Err(error: E)
}
