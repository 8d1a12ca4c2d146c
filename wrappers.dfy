/** The optional value used for Swift's `NSLayoutConstraint?`. */
module Wrappers {

  datatype Option<+T> = None | Some(value: T)
}
