/** The optional value used throughout the model: a result that may be absent (Python's
    `None`, or an operation of the host that raises). */
module Wrappers {
  datatype Option<T> = None | Some(value: T)
}
