/** A value that may be absent: JavaScript's `null` and Python's `None`. */
module Wrappers {
  datatype Option<+T> = None | Some(value: T)
}
