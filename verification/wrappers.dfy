/** The optional-value datatype used wherever the program has `null`,
    `undefined` or an operation that may fail without further detail. */
module Wrappers {

  datatype Option<+T> = None | Some(value: T)
}
