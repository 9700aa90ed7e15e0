/** The optional value used wherever the Go code may hold a nil `*T` or interface. */
module Wrappers {

  datatype Option<+T> = None | Some(value: T)
}
