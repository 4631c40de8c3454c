/** Values shared by every service of the backend: optional values, the
    outcome of an operation that may throw, and the exceptions the services
    raise. */
module Shared {

  datatype Option<T> = None | Some(value: T)

  /** The record kinds a lookup can miss (NestJS NotFoundException). */
  datatype Entity = SaleRecord | SessionRecord | JobRecord | PriceRecord

  /** Why a request was refused (NestJS BadRequestException). */
  datatype Reason =
    | ForeignSession            // the session belongs to another customer
    | SessionNotClosed          // a sale is made only from a CLOSED session
    | SessionNotActive          // carts change only while ACTIVE
    | EmptyCart                 // an empty session cannot be closed
    | AccessDenied              // a sale read by another customer
    | TotalMismatch             // offline total does not reconcile with its items
    | InsufficientStock(productCode: string)
    | CancelledSale             // a CANCELLED sale cannot be paid
    | JobNotFailed              // only failed jobs can be retried by hand
    | RetryLimitReached         // MAX_MANUAL_RETRIES reached
    | PaymentGenerationFailed   // the payment gateway refused the charge

  /** Everything an operation of the core can throw. */
  datatype Error =
    | NotFound(entity: Entity)
    | BadRequest(reason: Reason)
    | Conflict                  // idempotency key already held
    | FeedUnavailable           // the ERP feed timed out (InternalServerErrorException)
    | StoreFailure              // the key-value store replied with an error
    | ProductMissing(code: string)  // plain Error thrown by the catalog and price services

  datatype Result<T> = Ok(value: T) | Err(error: Error)

  function Max(a: int, b: int): (m: int)
    ensures m >= a && m >= b && (m == a || m == b)
  {
    if a >= b then a else b
  }
}
