/** The exceptions the simulated broker raises, and the result of an operation
    that either returns a value or raises one of them. */
module Outcomes {

  /** Why a `ValueError` was raised. */
  datatype ValueReason =
    | BadDirection       // direction is neither "buy" nor "sell"
    | NonPositiveAmount  // amount <= 0
    | EmptyDateRange     // start_date >= end_date

  /** Why an `OrderConflictError` was raised. */
  datatype ConflictReason =
    | UnknownOrder(id: int)  // no order with this id (there is no separate not-found error)
    | NotCancellable         // the order is no longer open

  /** The exception classes of the package, plus the built-in `ValueError`. */
  datatype Error =
    | SymbolNotFound(symbol: string)
    | ValueError(reason: ValueReason)
    | OrderConflict(conflict: ConflictReason)
    | APIUnavailable

  /** A domain error is any error except the simulated outage; only the outage is retried. */
  predicate IsDomainError(e: Error) {
    !e.APIUnavailable?
  }

  datatype Result<T> = Ok(value: T) | Err(error: Error)
}
