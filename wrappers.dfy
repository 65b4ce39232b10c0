/** The optional value used where the application returns `T | null` or `T | undefined`. */
module Wrappers {

  datatype Option<+T> = None | Some(value: T)

}
