/** Optional values, used where the program returns a (value, found) pair or a nil pointer. */
module Wrappers {
  datatype Option<+T> = None | Some(value: T)
}
