/** Optional values: Go's nil error and a failed read are both modelled as None. */
module Wrappers {

  datatype Option<+T> = None | Some(value: T)
}
