/** A value that may be absent: JavaScript's `undefined` / `null` next to a defined value. */
module Wrappers {

  datatype Option<+T> = None | Some(value: T)
}
