/** Optional values: `T | undefined` in the form engine's types. */
module Wrappers {

  datatype Option<+T> = None | Some(value: T)
}
