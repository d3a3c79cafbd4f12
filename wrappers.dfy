/** Optional values, standing for JavaScript's `null`/`undefined` and for missing results. */
module Wrappers {

  datatype Option<+T> = None | Some(value: T)
}
