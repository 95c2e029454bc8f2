/** Option, Result and Outcome: the model's stand-ins for JavaScript's `null`
    and for a method that either returns normally or throws. */
module Wrappers {

  /** `None` is JavaScript's `null`. */
  datatype Option<+T> = None | Some(value: T)

  /** A computation that returns a value or throws an error. */
  datatype Result<+T, +E> = Success(value: T) | Failure(error: E)

  /** A method with no result that returns normally or throws an error. */
  datatype Outcome<+E> = Pass | Fail(error: E)
}
