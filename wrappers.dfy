/** A value that may be absent; stands for a nullable pointer result. */
module Wrappers {
  datatype Option<+T> = None | Some(value: T)
}
