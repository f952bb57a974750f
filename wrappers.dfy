/** Option values, used for the header fields that start out `undefined`. */
module Wrappers {
  datatype Option<+T> = None | Some(value: T)
}
