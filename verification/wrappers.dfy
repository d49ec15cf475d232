/** The conventional optional value, used for JavaScript values that may be
    absent and for promises that may reject. */
module Wrappers {
  datatype Option<+T> = None | Some(value: T)
}
