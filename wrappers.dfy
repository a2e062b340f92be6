/** Optional values: `None` stands for JavaScript's `undefined` (a missing
    property, a missing header) and for library calls that throw. */
module Wrappers {

  datatype Option<+T> = None | Some(value: T)
}
