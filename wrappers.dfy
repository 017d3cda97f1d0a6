/** The optional value used for optional parameters and for "no event". */
module Wrappers {

  datatype Option<+T> = None | Some(value: T)
}
