/** The usual option type, for results that may be absent. */
module Wrappers {
  datatype Option<T> = None | Some(value: T)
}
