/** The optional value used for Go's nil pointers and "not found" results. */
module Wrappers {

  datatype Option<+T> = None | Some(value: T)
}
