/** The optional value used wherever the service returns either a value or the sentinel -1. */
module Wrappers {

  datatype Option<+T> = None | Some(value: T)
}
