/** The "value or nothing" wrapper used wherever the quiz uses `null`/`undefined`. */
module Wrappers {
  datatype Option<+T> = None | Some(value: T)
}
