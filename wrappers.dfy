/** Optional values: `None` stands for JavaScript's `undefined` wherever the
    renderer returns, stores or tests for it. */
module Wrappers {

  datatype Option<+T> = None | Some(value: T)
}
