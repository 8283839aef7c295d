/** Failure-carrying datatypes shared by the dashboard model. */
module Wrappers {

  /** A value that may be absent: a parsed date, a found column. */
  datatype Option<+T> = None | Some(value: T)

  /** The outcome of a stage that can stop the run with an error. */
  datatype Result<+T, +E> = Ok(value: T) | Err(error: E)
}
