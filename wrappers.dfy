/** The optional value used by the readers of displayed text. */
module Wrappers {
  datatype Option<+T> = None | Some(value: T)
}
