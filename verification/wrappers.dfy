/** The optional value used wherever the source has `undefined`/`null`. */
module Wrappers {
  datatype Option<+T> = None | Some(value: T)
}
