/** The optional value used wherever the source returns a reference that may be null. */
module Wrappers {
  datatype Option<+T> = None | Some(value: T)
}
