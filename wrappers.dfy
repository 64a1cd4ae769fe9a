/** The optional value used wherever the component holds `null` or a library returns nothing. */
module Wrappers {

  datatype Option<+T> = None | Some(value: T)
}
