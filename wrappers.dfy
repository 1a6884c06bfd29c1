/** Option, Result and Outcome: the error paths of the model are values of these types. */
module Wrappers {

  datatype Option<+T> = None | Some(value: T)

  /** A computation that yields a value or raises an error. */
  datatype Result<+R, +E> = Success(value: R) | Failure(error: E)

  /** A computation that returns nothing but may raise an error. */
  datatype Outcome<+E> = Pass | Fail(error: E)
}
