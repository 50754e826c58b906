/** The optional value used wherever the extension's code has `undefined` or a missing field. */
module Wrappers {
  datatype Option<+T> = None | Some(value: T)
}
