/** Optional values, used where the Go code returns a zero value or a nil error. */
module Wrappers {
  datatype Option<+T> = None | Some(value: T)
}
