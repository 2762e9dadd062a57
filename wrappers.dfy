/** The optional value used for Go's nil-able parameters (a nil map, a nil error). */
module Wrappers {

  datatype Option<+T> = None | Some(value: T)
}
