/** The optional value used throughout the model: a missing form field, a row
    that is not in a table, a JavaScript `null` or `undefined` reply. */
module Wrappers {

  datatype Option<+T> = None | Some(value: T)
}
