/** The optional value used wherever the Go code has a missing value or an error path. */
module Wrappers {

  datatype Option<+T> = None | Some(value: T)
}
