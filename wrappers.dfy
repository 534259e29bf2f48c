/** Option stands in for Python's None and for an attribute read that raises. */
module Wrappers {

  datatype Option<+T> = None | Some(value: T)
}
