/** The optional value the component stores as `null` or a value. */
module Wrappers {

  datatype Option<+T> = None | Some(value: T)
}
