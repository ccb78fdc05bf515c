/** The optional value used for JavaScript's `undefined`, for absent attributes and for failures. */
module Wrappers {

  datatype Option<+T> = None | Some(value: T)
}
