/** The optional value the script expresses with `null` / `undefined`. */
module Wrappers {

  datatype Option<+T> = None | Some(value: T)
}
