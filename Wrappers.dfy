/** The optional value used where the tool works with something that may be absent (a file that could not be opened). */
module Wrappers {
  datatype Option<+T> = None | Some(value: T)
}
