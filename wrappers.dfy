/** The optional value used where the uploader works with Python's `None`. */
module Wrappers {
  datatype Option<+T> = None | Some(value: T)
}
