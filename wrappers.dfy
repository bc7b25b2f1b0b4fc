/** Optional values: `None` stands for a platform call that produced nothing. */
module Wrappers {

  datatype Option<+T> = None | Some(value: T)
}
