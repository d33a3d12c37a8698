/** The optional value that stands for the source's nil maps. */
module Wrappers {

  datatype Option<+T> = None | Some(value: T)
}
