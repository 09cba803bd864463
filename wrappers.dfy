/** The optional-value datatype shared by the model's modules. */
module Wrappers {

  /** A value that may be absent: the result of a parse that can fail,
      or a pointer argument that may be NULL. */
  datatype Option<+T> = None | Some(value: T)
}
