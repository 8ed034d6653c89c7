/** The optional value used for every nullable string of the source. */
module Wrappers {

  datatype Option<+T> = None | Some(value: T)
}
