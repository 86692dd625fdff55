/** An optional value: stands for a JS value that may be absent or unusable. */
module Wrappers {

  datatype Option<+T> = None | Some(value: T)
}
