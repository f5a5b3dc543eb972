/** Optional values, used for `T | null` fields and for a JavaScript number that may be NaN. */
module Wrappers {
  datatype Option<+T> = None | Some(value: T)
}
