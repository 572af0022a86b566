/** Small value wrappers shared by the rest of the model. */
module Wrappers {

  /** `null`/`undefined` in the frontend, `None` in the backend. */
  datatype Option<+T> = None | Some(value: T)

  /** A backend operation either returns a value or raises an HTTP error. */
  datatype Result<+T, +E> = Success(value: T) | Failure(error: E)
}
