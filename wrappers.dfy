/** The optional value used for absent pointers and optional fields. */
module Wrappers {
  datatype Option<+T> = None | Some(value: T)
}
