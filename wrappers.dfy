/** Optional values: a field or argument that may be absent (`undefined` in TypeScript). */
module Wrappers {

  datatype Option<+T> = None | Some(value: T)
}
