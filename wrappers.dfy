/** The optional value used wherever the client's JavaScript may see
    `undefined` (or NaN) instead of a number. */
module Wrappers {
  datatype Option<+T> = None | Some(value: T)
}
