/** The optional-value datatype used throughout the model for Python values
    that may be `None` (a missing dictionary key, a missing JSON field). */
module Wrappers {

  datatype Option<+T> = None | Some(value: T)
}
