/** Option, used wherever the source has a missing value or an exception path. */
module Wrappers {
  datatype Option<+T> = None | Some(value: T)
}
