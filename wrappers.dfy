/** A value that may be absent: JavaScript's `null`/`undefined` beside a present value. */
module Wrappers {
  datatype Option<+T> = None | Some(value: T)
}
