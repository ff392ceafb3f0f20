/** The optional value returned by the ledger's lookups (JavaScript's `undefined` result of `find`). */
module Wrappers {
  datatype Option<+T> = None | Some(value: T)
}
