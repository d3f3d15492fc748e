/** Optional values: a TypeScript `T | undefined` parameter, or a reference that may be `null`. */
module Wrappers {
  datatype Option<+T> = None | Some(value: T)
}
