/** The optional value used by the reference parsers of this project. */
module Wrappers {
  datatype Option<+T> = None | Some(value: T)
}
