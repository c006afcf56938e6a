/** Optional values, used where the source returns Python's None or a lookup may miss. */
module Wrappers {

  datatype Option<+T> = None | Some(value: T)
}
