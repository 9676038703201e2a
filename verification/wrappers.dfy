/** Optional values: a browser API result that may be null, a storage slot that may be empty. */
module Wrappers {

  datatype Option<+T> = None | Some(value: T)
}
