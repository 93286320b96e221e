/** The two wrappers used throughout the model: `Option` for the
    source's `undefined`/`null` values and `Result` for a call that either
    returns or throws. */
module Wrappers {

  datatype Option<+T> = None | Some(value: T)

  datatype Result<+R, +E> = Success(value: R) | Failure(error: E)
}
