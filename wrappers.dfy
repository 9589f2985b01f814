/** Optional values, used wherever the source raises an exception instead of returning. */
module Wrappers {

  datatype Option<T> = None | Some(value: T)

}
