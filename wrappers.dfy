/** The optional-value datatype used for the optional parts of the configuration. */
module Wrappers {

  /** `None` stands for a property the host left undefined. */
  datatype Option<+T> = None | Some(value: T)
}
