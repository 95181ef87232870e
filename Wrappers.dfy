/** The Option datatype used for the card's interval reference. */
module Wrappers {
  datatype Option<+T> = None | Some(value: T)
}
