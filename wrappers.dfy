/** The optional value used wherever the JavaScript code reads a field or an
    object that may be `undefined` or `null`. */
module Wrappers {

  datatype Option<+T> = None | Some(value: T)
}
