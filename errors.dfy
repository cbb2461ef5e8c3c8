/** What the core can fail with: error codes recorded per piece, and exceptions that end a call. */
module Errors {

  /** The `ErrorCodes` constants this core records or throws. */
  datatype ErrorCode = ItemCreationFailed | ItemUpdateFailed | MissingMaterialType

  /** An exception, or a future completed exceptionally. */
  datatype Failure =
    | HttpCoded(status: int, errorCode: ErrorCode)// new HttpException(status, ErrorCodes)
    | HttpMessage(status: int, message: string)   // new HttpException(status, message)
    | NoRecords(property: string)                 // InventoryException: no records of the property
    | Validation(message: string, code: string)   // ValidationException(message, code)
    | NumberFormat(message: string)               // NumberFormatException
    | DuplicateKey                                // IllegalStateException from toMap
    | NullReference                               // NullPointerException
    | ClassCast                                   // ClassCastException
    | RemoteFailure                               // a remote call that failed
}
