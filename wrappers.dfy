/** Optional values: a request field that may be missing, or Python's None. */
module Wrappers {

  datatype Option<+T> = None | Some(value: T)

}
