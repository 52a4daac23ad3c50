/** The optional value used for a slide's heading and an open paragraph's text. */
module Wrappers {
  datatype Option<+T> = None | Some(value: T)
}
