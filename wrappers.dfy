// Optional values and step results, shared by every module of the model.
module Wrappers {

  /** A value that may be absent: a JavaScript `undefined` is `None`. */
  datatype Option<+T> = None | Some(value: T)

  /** The outcome of a step that returns a value or throws. */
  datatype Result<+T, +E> = Ok(value: T) | Err(error: E)

  /** The outcome of a step that returns nothing or throws. */
  datatype Outcome<+E> = Pass | Fail(error: E)
}
