/** Wrappers used across the model: an optional value
    (Python's `Optional[str]`) and a success-or-error result (a return value
    or a raised exception). */
module Wrappers {

  datatype Option<+T> = None | Some(value: T)

  datatype Result<+R, +E> = Success(value: R) | Failure(error: E)
}
