/** The optional value used wherever the source returns `None`, an empty result or a failure without detail. */
module Wrappers {

  datatype Option<+T> = None | Some(value: T)
}
