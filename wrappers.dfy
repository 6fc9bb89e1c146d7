/** Optional values: an event handler that may or may not emit a motor command. */
module Wrappers {

  datatype Option<+T> = None | Some(value: T)
}
