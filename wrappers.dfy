/** The optional value used for JavaScript's `null` / `undefined` / `NaN` outcomes. */
module Wrappers {

  datatype Option<+T> = None | Some(value: T)
}
