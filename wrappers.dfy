/** The optional value used wherever the handler meets Python's `None`. */
module Wrappers {

  datatype Option<+T> = None | Some(value: T)
}
