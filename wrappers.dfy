/** The optional value returned by the label parser. */
module Wrappers {
  datatype Option<+T> = None | Some(value: T)
}
