/** Optional values, used for the `?.` lookups of the page list and for the optional page fields. */
module Wrappers {

  /** A value that is present (`Some`) or absent (`None`, JavaScript's `undefined`). */
  datatype Option<+T> = None | Some(value: T)
}
