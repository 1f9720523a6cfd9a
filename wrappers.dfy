/** Absence of a value, as JavaScript's `undefined` is used by the loader. */
module Wrappers {

  datatype Option<+T> = None | Some(value: T)
}
