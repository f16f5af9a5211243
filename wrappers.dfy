/** The optional value used wherever the JavaScript code may see `undefined`. */
module Wrappers {

  datatype Option<+T> = None | Some(value: T)
}
