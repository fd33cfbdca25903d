/** A value that may be missing: `null` or `undefined` on the JavaScript side. */
module Wrappers {

  datatype Option<+T> = None | Some(value: T)
}
