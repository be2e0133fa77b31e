/** A value that may be absent, as a JavaScript property read that yields `undefined`. */
module Wrappers {
  datatype Option<+T> = None | Some(value: T)
}
