/** Failure-compatible wrappers shared by the rest of the model:
    - Option<T> for the response fields that start out as Python `None`;
    - Result<R, E> for a response handler, which either returns a value or raises. */
module Wrappers {

  datatype Option<+T> = None | Some(value: T)

  datatype Result<+R, +E> = Success(value: R) | Failure(error: E)
}
