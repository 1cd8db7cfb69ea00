/** Small failure-carrying datatypes used by every store of the tracker. */
module Outcomes {

  /** A value that may be missing: a JavaScript `null`/`undefined` field, or a `parseFloat` that gave NaN. */
  datatype Option<+T> = None | Some(value: T)

  /** The outcome of a lookup that either yields a value or the reason it failed. */
  datatype Result<+T, +E> = Ok(value: T) | Err(error: E)

  /** The outcome of an operation that has no value to return: it applied, or it was rejected for a reason. */
  datatype Outcome<+E> = Pass | Fail(error: E)
}
