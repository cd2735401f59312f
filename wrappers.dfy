/** The optional value used wherever the PHP code works with something that may be `null`. */
module Wrappers {

  datatype Option<+T> = None | Some(value: T)
}
