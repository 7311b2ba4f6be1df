/** The optional value used where the router's library calls may yield nothing. */
module Wrappers {

  datatype Option<+T> = None | Some(value: T)
}
