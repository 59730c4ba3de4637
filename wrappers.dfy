/** A value that may be absent: JavaScript's `null` / `undefined` on a property or array slot. */
module Wrappers {

  datatype Option<+T> = None | Some(value: T)
}
