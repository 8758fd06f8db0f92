/** The optional value shared by every module: a null pointer or a missing entry is `None`. */
module Wrappers {
  datatype Option<T> = None | Some(value: T)
}
