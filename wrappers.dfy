/** An optional value: Go's nil (absent) versus a present value. */
module Wrappers {
  datatype Option<T> = None | Some(value: T)
}
