/**
 * Go error values as the client produces them. Wrapping with `%w` keeps the
 * inner error, so a wrapped error is a term that still holds what it wraps.
 */
module Failures {
  import opened Format
  import ApiErrors

  datatype Failure =
    /** A package-level error variable such as `ErrMissingAccountID`; its text is defined outside this model. */
    | Sentinel(name: string)
    /** `errors.New(text)`, or `fmt.Errorf` without `%w`. */
    | Message(text: string)
    /** `fmt.Errorf(context + "%w", inner)`. */
    | Wrapped(context: string, inner: Failure)
    /** An `*Error` built from a response envelope. */
    | Api(error: ApiErrors.Error)

  /** A value or the error that replaced it. */
  datatype Result<+T> = Ok(value: T) | Err(error: Failure)

  const ErrMissingClientID := Sentinel("ErrMissingClientID")
  const ErrMissingClientSecret := Sentinel("ErrMissingClientSecret")
  const ErrMissingCustomerID := Sentinel("ErrMissingCustomerID")
  const ErrMissingAccountID := Sentinel("ErrMissingAccountID")
  const ErrMissingPaymentID := Sentinel("ErrMissingPaymentID")
  const ErrMissingTransferQuery := Sentinel("ErrMissingTransferQuery")

  /** `fmt.Errorf("unexpected status code: %d", sc)`. */
  function UnexpectedStatus(sc: int): Failure
  {
    Message("unexpected status code: " + Decimal(sc))
  }
}
