/** The optional-value type used across the model. */
module Wrappers {

  /** A value that may be absent, as a Java reference that may be null. */
  datatype Option<+T> = None | Some(value: T)
}
