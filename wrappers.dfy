/** The optional value used wherever the source may get `None` back. */
module Wrappers {

  datatype Option<+T> = None | Some(value: T)
}
