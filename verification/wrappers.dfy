/** Optional values: an absent object key, a `find` that matched nothing,
    a callback that was not invoked. */
module Wrappers {

  datatype Option<+T> = None | Some(value: T)
}
