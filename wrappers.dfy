/** The optional-value and outcome datatypes shared by the other modules. */
module Wrappers {

  /** A value that may be absent: JavaScript's `null`/`undefined`, Python's `None`. */
  datatype Option<+T> = None | Some(value: T)

  /** The outcome of an API call: a value, or the error the endpoint raises. */
  datatype Result<+T, +E> = Success(value: T) | Failure(error: E)
}
