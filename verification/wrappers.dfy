/** An optional value shared by the logging modules. */
module Wrappers {

  /** An optional value: Go's nil interface or nil error becomes None. */
  datatype Option<+T> = None | Some(value: T)
}
