/** The optional value used for the selected product and for the language model's reply. */
module Wrappers {
  datatype Option<+T> = None | Some(value: T)
}
