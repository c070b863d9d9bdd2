/** Optional values: Go's "nothing written yet" for the response status. */
module Wrappers {

  datatype Option<+T> = None | Some(value: T)
}
