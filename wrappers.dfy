/** The optional-value wrapper used for the schema's nullable properties. */
module Wrappers {

  /** `None` stands for Java's `null`: a property that is not set. */
  datatype Option<+T> = None | Some(value: T)
}
