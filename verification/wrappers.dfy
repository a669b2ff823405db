/** Option and Result wrappers; a .NET exception becomes a `Throws` value. */
module Wrappers {

  datatype Option<T> = None | Some(value: T)

  /** The exceptions the modelled code can raise and that its callers catch or propagate. */
  datatype Exception =
    | KeyNotFound(key: string)        // Dictionary indexer on a missing key
    | DuplicateKey(key: string)       // Dictionary.Add on a key already present
    | IndexOutOfRange                 // array index past the pieces of a Split
    | NotAvailable(message: string)   // an explicit `throw new Exception(...)`
    | NullReference                   // a call through a reference that was never set

  datatype Result<T> = Ok(value: T) | Throws(exception: Exception)
}
