/** Optional values: `None` stands for Go's nil / "not present" results. */
module Wrappers {
  datatype Option<+T> = None | Some(value: T)
}
