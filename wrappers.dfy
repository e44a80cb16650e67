/** The conventional optional value, used for dictionary lookups and search results. */
module Wrappers {
  datatype Option<+T> = None | Some(value: T)
}
