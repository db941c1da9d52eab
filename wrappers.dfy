/** The optional-value datatype used throughout the model. */
module Wrappers {

  /** An attribute or parameter that may be left undefined (Puppet's `undef`). */
  datatype Option<+T> = None | Some(value: T)
}
