/** The conventional optional value, in place of Go's nil pointers. */
module Wrappers {
  datatype Option<+T> = None | Some(value: T)
}
