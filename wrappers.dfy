/** The optional value used for Python's `None` results and optional arguments. */
module Wrappers {

  datatype Option<+T> = None | Some(value: T)
}
