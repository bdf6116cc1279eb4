/** An optional value, for the source's `null`-or-value fields. */
module Wrappers {
  datatype Option<T> = None | Some(value: T)
}
