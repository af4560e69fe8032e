/** The optional value used for the handler's nullable results and fields. */
module Wrappers {

  datatype Option<+T> = None | Some(value: T)
}
