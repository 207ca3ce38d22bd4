/** The exceptions the core throws or lets through. */
module Exceptions {

  datatype Exception =
    /** Exceptions/ApplicationStoreException.cs */
    | ApplicationStoreException(message: string)
    /** Exceptions/ApplicationOrchestratorException.cs */
    | ApplicationOrchestratorException(message: string)
    /** Exceptions/CodatDataClientException.cs: a failed call to the accounting API. */
    | CodatDataClientException(message: string)
    /** The `ArgumentException` of `Dictionary.Add` for a key already present. */
    | DuplicateKeyException(key: string)
    /** Division of a `decimal` by zero. */
    | DivideByZeroException
    /** Conversion of an infinite or undefined `double` to `decimal`. */
    | OverflowException
}
