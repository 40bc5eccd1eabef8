/** The absent value of a JavaScript `number | null`. */
module Wrappers {

  datatype Option<+T> = None | Some(value: T)
}
