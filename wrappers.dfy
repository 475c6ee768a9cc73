/** Optional values: `None` stands for JavaScript's `undefined`/`null` where the
    source reads a value that may be absent. */
module Wrappers {
  datatype Option<+T> = None | Some(value: T)
}
