/** Python's `None`-or-value, as the handlers see optional message fields. */
module Wrappers {

  datatype Option<+T> = None | Some(value: T)
}
