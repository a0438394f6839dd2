/** Optional values: `None` stands for Go's nil (a nil map, a nil pointer, a nil error). */
module Wrappers {
  datatype Option<+T> = None | Some(value: T)
}
