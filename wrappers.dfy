/** The optional value used wherever JavaScript has `null` or `undefined` beside a value. */
module Wrappers {

  datatype Option<+T> = None | Some(value: T)
}
