/** The optional value used by the wire schema and the user-interface state. */
module Wrappers {

  datatype Option<+T> = None | Some(value: T)
}
