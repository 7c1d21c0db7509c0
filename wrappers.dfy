/** Optional values: a TypeScript property or parameter that may be `undefined`. */
module Wrappers {

  datatype Option<+T> = None | Some(value: T)
}
