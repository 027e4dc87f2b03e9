/** The optional value used for collaborators that may produce nothing. */
module Wrappers {

  datatype Option<+T> = None | Some(value: T)
}
