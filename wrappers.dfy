/** The optional value that `Array.prototype.find` and Go's nil pointer stand for. */
module Wrappers {
  datatype Option<+T> = None | Some(value: T)
}
