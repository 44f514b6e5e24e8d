/** The optional value used for results the source may fail to produce. */
module Wrappers {
  datatype Option<T> = None | Some(value: T)
}
