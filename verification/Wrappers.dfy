/** The optional value used throughout: a pointer that may be null, a row that may be absent. */
module Wrappers {
  datatype Option<+T> = None | Some(value: T)
}
