/** The optional value used for JavaScript properties that may be absent. */
module Wrappers {

  /** `None` stands for an absent (or deleted) property, `Some(v)` for one holding `v`. */
  datatype Option<+T> = None | Some(value: T)
}
