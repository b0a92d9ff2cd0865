/** The optional value JavaScript expresses with `undefined` or `null`. */
module Wrappers {

  datatype Option<+T> = None | Some(value: T)
}
