/** A value that may be absent, for the readers that can fail. */
module Wrappers {
  datatype Option<T> = None | Some(value: T)
}
