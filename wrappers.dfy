/** A value that may be absent: JavaScript's `null` argument, or a result the program cannot compute. */
module Wrappers {
  datatype Option<T> = None | Some(value: T)
}
