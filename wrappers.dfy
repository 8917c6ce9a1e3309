/** A value that may be missing: Ruby's nil, or a call that yields nothing. */
module Wrappers {

  datatype Option<T> = None | Some(value: T)
}
