/** The optional value used for JavaScript's null / undefined / falsy checks. */
module Wrappers {

  datatype Option<+T> = None | Some(value: T)
}
