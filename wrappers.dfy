/** The optional value used for Python's `None`-or-something arguments. */
module Wrappers {

  datatype Option<+T> = None | Some(value: T)
}
