/** The optional value used for simulator outputs and for moves that fall off a range. */
module Wrappers {

  datatype Option<+T> = None | Some(value: T)
}
