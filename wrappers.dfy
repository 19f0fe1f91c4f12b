/** An optional value: JavaScript's `null` / `NaN` results and absent matches. */
module Wrappers {

  datatype Option<+T> = None | Some(value: T)
}
