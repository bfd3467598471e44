/** The optional value used wherever the script yields Python's None. */
module Wrappers {
  datatype Option<+T> = None | Some(value: T)
}
