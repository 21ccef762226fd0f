/** Optional values: Python's `Optional[T]`, where `None` is Python's `None`. */
module Wrappers {
  datatype Option<+T> = None | Some(value: T)
}
