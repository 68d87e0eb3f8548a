/** The optional value used wherever the shell passes around a pointer that may be NULL. */
module Wrappers {

  datatype Option<+T> = None | Some(value: T)
}
