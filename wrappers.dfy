/** An optional value: the page's `undefined` for data that has not arrived. */
module Wrappers {
  datatype Option<+T> = None | Some(value: T)
}
