/** The optional-value type shared by every module of the model. */
module Wrappers {

  /** A value that may be absent: a dictionary miss, a row that could not be read. */
  datatype Option<+T> = None | Some(value: T)
}
