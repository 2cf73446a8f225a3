/** The optional value shared by the modules of this project. */
module Wrappers {

  /** A value that may be absent: Go's `*T` that may be `nil`. */
  datatype Option<T> = None | Some(value: T)
}
