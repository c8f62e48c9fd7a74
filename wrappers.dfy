/** Option, the value of a shared pointer that may be null. */
module Wrappers {

  datatype Option<+T> = None | Some(value: T)
}
