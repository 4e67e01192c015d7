/** Values shared by every service: optional values, results, the exception taxonomy
    the services throw, and the shape of a well-formed MongoDB object id. */
module Common {

  datatype Option<+T> = None | Some(value: T)

  /** Failures the store itself can raise, as the services tell them apart.
      TransactionsUnsupported stands for the two error messages the services recognise
      ("Transaction numbers are only allowed", "replica set"); OtherFault for anything else. */
  datatype StoreFault = TransactionsUnsupported | OtherFault

  /** The exceptions thrown by the services (NestJS HTTP exceptions and rethrown store errors). */
  datatype Error =
    | BadRequest(message: string)
    | NotFound(message: string)
    | Conflict(message: string)
    | Unauthorized(message: string)
    | StoreError(fault: StoreFault)

  datatype Result<+T> = Ok(value: T) | Err(error: Error)

  predicate IsHexDigit(c: char) {
    '0' <= c <= '9' || 'a' <= c <= 'f' || 'A' <= c <= 'F'
  }

  /** An object id string accepted by `Types.ObjectId.isValid`: 24 hexadecimal digits. */
  predicate IsValidObjectId(id: string) {
    |id| == 24 && forall i :: 0 <= i < |id| ==> IsHexDigit(id[i])
  }
}
