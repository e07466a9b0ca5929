/** Option, for the server's slots that JavaScript leaves `undefined` until assigned. */
module Wrappers {

  datatype Option<+T> = None | Some(value: T)
}
