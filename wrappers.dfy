/** Optional values: a document that a lookup may or may not find, a field that may be absent. */
module Wrappers {

  datatype Option<+T> = None | Some(value: T)
}
