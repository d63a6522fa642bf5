/** The optional value used for the parser oracle and header readers. */
module Wrappers {

  datatype Option<+T> = None | Some(value: T)
}
