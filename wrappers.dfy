/** The optional-value datatype shared by every module of the model. */
module Wrappers {
  /** `None` stands for JavaScript's `undefined` (or an absent value). */
  datatype Option<+T> = None | Some(value: T)
}
