/** Optional values, used where the gateway may or may not produce something. */
module Wrappers {
  datatype Option<+T> = None | Some(value: T)
}
