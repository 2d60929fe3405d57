/** The Option datatype used wherever the source works with a nullable value. */
module Wrappers {
  datatype Option<+T> = None | Some(value: T)
}
