/** Go's nilable pointers and interface values, as an explicit optional value. */
module Wrappers {

  /** `None` stands for Go's `nil`. */
  datatype Option<+T> = None | Some(value: T)
}
