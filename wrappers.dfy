/** The "value or nothing" result that lookups return instead of `undefined`. */
module Wrappers {

  datatype Option<+T> = None | Some(value: T)
}
