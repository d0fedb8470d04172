/** The optional value used wherever the store reports a missing row. */
module Wrappers {
  datatype Option<+T> = None | Some(value: T)
}
