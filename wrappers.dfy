/** The optional value used for the keychain's error. */
module Wrappers {

  /** An optional value; `None` plays the part of Go's `nil` error. */
  datatype Option<+T> = None | Some(value: T)
}
