/** The optional value that stands for a JavaScript `undefined` result. */
module Wrappers {

  datatype Option<+T> = None | Some(value: T)
}
