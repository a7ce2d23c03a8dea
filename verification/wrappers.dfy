/** The optional value used wherever the source returns `None` for "not there". */
module Wrappers {

  datatype Option<+T> = None | Some(value: T)
}
