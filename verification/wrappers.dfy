/** The absent-or-present value used for Python's `None` in the plotter. */
module Wrappers {

  datatype Option<+T> = None | Some(value: T)
}
