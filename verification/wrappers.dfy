/** Option and Result, the two failure-compatible wrappers the model uses in
    place of Java's null and thrown exceptions. */
module Wrappers {

  /** A value that may be missing, where the source would use null. */
  datatype Option<+T> = None | Some(value: T)

  /** A value or the error that replaced it. */
  datatype Result<+T, +E> = Ok(value: T) | Err(error: E)
}
