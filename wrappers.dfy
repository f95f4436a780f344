/** Optional values, used where the source has a nil-able pointer or a zero value. */
module Wrappers {

  datatype Option<+T> = None | Some(value: T)
}
