/** Optional values, as the tools receive them (a Python `None` is `None` here). */
module Wrappers {

  datatype Option<+T> = None | Some(value: T)
}
