/** An optional value: an attribute that may be nil, or a text that may not decode. */
module Wrappers {

  datatype Option<+T> = None | Some(value: T)
}
