/** The optional value used for "no hand in this frame" and "no command this frame". */
module Wrappers {
  datatype Option<+T> = None | Some(value: T)
}
