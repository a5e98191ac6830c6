/** Java's nullable references, as an option. */
module Wrappers {
  datatype Option<T> = None | Some(value: T)
}
