/** The optional-value datatype used for JavaScript's `undefined`/`null`
    fields and for lookups that may find nothing. */
module Wrappers {

  datatype Option<+T> = None | Some(value: T)
}
