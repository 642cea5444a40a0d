/** The option type used by every component. */
module Wrappers {

  datatype Option<+T> = None | Some(value: T)
}
