/** The optional value used for the nullable fields of the game's records. */
module Wrappers {

  /** `None` stands for JavaScript's null/undefined. */
  datatype Option<+T> = None | Some(value: T)
}
