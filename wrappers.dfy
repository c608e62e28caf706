/** The optional value used for the cache slots: std::optional in the source. */
module Wrappers {

  datatype Option<+T> = None | Some(value: T)
}
