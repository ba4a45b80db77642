/** The optional-value datatype used for the source's optional fields and nullable refs. */
module Wrappers {

  datatype Option<+T> = None | Some(value: T)
}
