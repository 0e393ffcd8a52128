/** The optional value used wherever JavaScript has `undefined` or `null`. */
module Wrappers {
  datatype Option<+T> = None | Some(value: T)
}
