/** Optional values: Python's `Optional[T]`, where `None` marks an absent side. */
module Wrappers {

  datatype Option<+T> = None | Some(value: T)
}
