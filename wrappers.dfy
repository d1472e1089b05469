/** The optional value used for Ruby's nil-able fields. */
module Wrappers {

  datatype Option<+T> = None | Some(value: T)
}
