/** The optional value the dashboard writes as `null` or a value. */
module Wrappers {
  datatype Option<T> = None | Some(value: T)
}
