/** A value that may be missing: the JavaScript `undefined` of a module-level `let`. */
module Wrappers {
  datatype Option<T> = None | Some(value: T)
}
