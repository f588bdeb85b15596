/** The optional value used where a lookup in the source can fail. */
module Wrappers {

  datatype Option<+T> = None | Some(value: T)
}
