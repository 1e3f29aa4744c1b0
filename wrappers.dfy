/** Small shared value types. */
module Wrappers {

  /** A value that may be absent: Python's `None` default for an optional argument. */
  datatype Option<+T> = None | Some(value: T)
}
