/** Small value wrappers shared by every module. */
module Wrappers {

  /** A value that may be absent (Python's `None`, or a partial function's "undefined"). */
  datatype Option<+T> = None | Some(value: T)
}
