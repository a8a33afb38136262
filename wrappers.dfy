/** Option and Result: the `null` / error returns of the modelled code. */
module Wrappers {

  datatype Option<+T> = None | Some(value: T)

  /** A query function's outcome: `{ data }` or `{ error }`. */
  datatype Result<+R, +E> = Success(value: R) | Failure(error: E)
}
