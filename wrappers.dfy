/** The optional value used for Go's nil-or-error results. */
module Wrappers {

  /** `None` stands for a nil `error`, `Some(e)` for an error whose text is `e`. */
  datatype Option<+T> = None | Some(value: T)
}
