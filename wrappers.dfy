/** An optional value: SQL's NULL for a nullable column, or "nothing selected". */
module Wrappers {

  datatype Option<+T> = None | Some(value: T)
}
