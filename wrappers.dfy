/** A value that may be absent: what a JSON `.get` or a nullable column yields. */
module Wrappers {

  datatype Option<+T> = None | Some(value: T)
}
