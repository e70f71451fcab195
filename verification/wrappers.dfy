/** The optional value the screens keep for "nothing selected" / "no such product". */
module Wrappers {

  datatype Option<+T> = None | Some(value: T)
}
