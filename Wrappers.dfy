/** The optional value used in place of the `float('-inf')` sentinel and of
    variables that the source may leave unbound. */
module Wrappers {

  datatype Option<+T> = None | Some(value: T)
}
