/** The optional value used for `None` returns and unset cache fields. */
module Wrappers {
  datatype Option<+T> = None | Some(value: T)
}
