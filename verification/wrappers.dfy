/** An optional value: Go's nil pointer or a missing optional argument. */
module Wrappers {
  datatype Option<T> = None | Some(value: T)
}
