/** Optional values: a JavaScript `null` / absent entry is `None`. */
module Wrappers {
  datatype Option<+T> = None | Some(value: T)
}
