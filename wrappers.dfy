/** The optional value the Swift code returns from its failable initialiser. */
module Wrappers {
  datatype Option<+T> = None | Some(value: T)
}
