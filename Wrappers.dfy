/** Optional values: a JavaScript property that may be missing (undefined) or present. */
module Wrappers {
  datatype Option<+T> = None | Some(value: T)
}
