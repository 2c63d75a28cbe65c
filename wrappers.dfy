/** The optional value used where script.js has `null` or a missing result. */
module Wrappers {
  datatype Option<+T> = None | Some(value: T)
}
