/** A value that may be absent: JavaScript's `undefined`/`null` where the source allows it. */
module Wrappers {
  datatype Option<+T> = None | Some(value: T)
}
