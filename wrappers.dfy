/** Optional values. `None` stands for JavaScript's `null`, and for `NaN` where a parse fails. */
module Wrappers {

  datatype Option<+T> = None | Some(value: T)
}
