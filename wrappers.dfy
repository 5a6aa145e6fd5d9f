/** The optional-value type used by the invoice-number parser. */
module Wrappers {
  datatype Option<+T> = None | Some(value: T)
}
