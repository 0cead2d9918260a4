/** Optional values: a NULL pointer, a JSON member that is missing or not a string. */
module Wrappers {

  datatype Option<+T> = None | Some(value: T)
}
