/** The optional value used throughout the model for Python's `None` and for
    operations that raise instead of returning. */
module Wrappers {

  datatype Option<+T> = None | Some(value: T)
}
