/** The usual optional-value datatype, for results the source signals with `false`. */
module Wrappers {
  datatype Option<+T> = None | Some(value: T)
}
