/** Optional values: stands for a Java reference that may be null, or a file that may be missing. */
module Wrappers {

  datatype Option<+T> = None | Some(value: T)
}
