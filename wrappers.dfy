/** The optional value that WordPress lookups return: a value, or `false` when absent. */
module Wrappers {

  datatype Option<+T> = None | Some(value: T)

}
