/** The optional value used for JavaScript `null` and for "no result yet". */
module Wrappers {

  datatype Option<+T> = None | Some(value: T)
}
