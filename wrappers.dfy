/** The usual optional value, used for absent DOM attributes and for decisions that may do nothing. */
module Wrappers {
  datatype Option<+T> = None | Some(value: T)
}
