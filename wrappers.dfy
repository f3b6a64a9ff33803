/** The optional value used for C's nullable pointers and for "no timeout". */
module Wrappers {

  datatype Option<+T> = None | Some(value: T)
}
