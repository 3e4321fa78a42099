/** The optional value used wherever the source has `T | null` or an `undefined` field. */
module Wrappers {

  datatype Option<+T> = None | Some(value: T)
}
