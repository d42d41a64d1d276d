/** Optional values used across the model. */
module Wrappers {

  /** A value that may be missing: the model's stand-in for `null`/`undefined`. */
  datatype Option<+T> = None | Some(value: T)
}
