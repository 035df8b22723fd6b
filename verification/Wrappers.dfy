/** Option, used wherever the program returns a value or an error. */
module Wrappers {
  datatype Option<+T> = None | Some(value: T)
}
