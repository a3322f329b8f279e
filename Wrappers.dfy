/** Optional values: a JavaScript `null`/`undefined` (or a NaN from a failed parse) becomes `None`. */
module Wrappers {
  datatype Option<+T> = None | Some(value: T)
}
