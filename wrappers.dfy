/** The optional value used wherever the host DOM may or may not hold an element. */
module Wrappers {

  datatype Option<+T> = None | Some(value: T)
}
