// The optional value shared by the grid lookup, goal selection and plan_path.
module Wrappers {

  /** A value, or None where the source has none (or raises). */
  datatype Option<T> = None | Some(value: T)
}
