/** The `T | null` results of the application, as an option type. */
module Wrappers {

  datatype Option<+T> = None | Some(value: T)
}
