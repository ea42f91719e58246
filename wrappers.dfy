/** Swift's `Optional`, written the Dafny way. */
module Wrappers {

  datatype Option<+T> = None | Some(value: T)
}
