/** Failure-carrying results used by the thumbnail pipeline: a Go function that
    returns `(value, error)` is modelled as a `Result`, and an optional struct
    field as an `Option`.
 */
module Wrappers {

  datatype Option<+T> = None | Some(value: T)

  datatype Result<+T, +E> = Success(value: T) | Failure(error: E)
}
