/** A value that may be missing: the source's null pointers, and its functions
    that return whether they found anything. */
module Wrappers {
  datatype Option<+T> = None | Some(value: T)
}
