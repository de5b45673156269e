/** The optional value used for JavaScript's `undefined` (and, for a pinch
    distance, any value that is not finite). */
module Wrappers {
  datatype Option<+T> = None | Some(value: T)
}
