/** The optional value a store read returns: a key is either present or absent. */
module Wrappers {

  datatype Option<+T> = None | Some(value: T)
}
