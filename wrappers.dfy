/** The optional value used throughout the model: a missing header, an absent row, a token
    with no second field. */
module Wrappers {

  datatype Option<+T> = None | Some(value: T)
}
