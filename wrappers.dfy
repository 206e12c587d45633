/** Optional values: a JSON field that may be absent, or a handle that may be null. */
module Wrappers {

  datatype Option<+T> = None | Some(value: T)
}
