/** Optional values: a JavaScript field that is set, or is `undefined`/`null`. */
module Wrappers {
  datatype Option<+T> = None | Some(value: T)
}
