/** The absence of a value where the code returns an error status. */
module Wrappers {
  datatype Option<+T> = None | Some(value: T)
}
