/** Small failure-compatible wrapper shared by the modules of this project. */
module Wrappers {
  /** A value that may be absent: JavaScript's null/undefined, Python's None. */
  datatype Option<+T> = None | Some(value: T)
}
