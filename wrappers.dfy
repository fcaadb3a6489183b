/** A value that may be JavaScript's `null`. */
module Wrappers {
  datatype Option<T> = None | Some(value: T)
}
