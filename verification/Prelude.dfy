/** The option, result and error types and the small arithmetic that the other modules share. */
module Prelude {

  datatype Option<+T> = None | Some(value: T)

  /** A call either returns a value or fails; a failed transaction leaves no trace. */
  datatype Result<+T> = Ok(value: T) | Err(error: Error)
  {
    predicate IsFailure() { Err? }

    function PropagateFailure<U>(): Result<U>
      requires Err?
    {
      Err(error)
    }

    function Extract(): T
      requires Ok?
    {
      value
    }
  }

  function Min(a: int, b: int): (m: int)
    ensures m <= a && m <= b && (m == a || m == b)
  {
    if a < b then a else b
  }

  function AtLeastZero(n: int): (m: nat)
    ensures m >= n && (m == n || m == 0)
  {
    if n < 0 then 0 else n
  }

  /** The error codes of the modelled operations. */
  datatype Error =
    // decimals and money
    | DecimalInvalid | MultiplierInvalid | MoneyInvalid | AmountInvalid | AmountOutOfRange
    // rating
    | RatingTermsInvalid | ProductMismatch | CostMissing | CostMismatch
    | ServiceUnknown | UserInvalid | CostInvalid | TariffCurrencyInvalid | CreditPrecisionInvalid
    | PreviousAllocationInvalid | ServiceMissing | AllocationInvalid
    // payments
    | OrderExists | PaymentBindingInvalid | PaymentRebindForbidden | EntryExists
    | AdjustmentStateConflict | AdjustmentRebindForbidden | PaymentNotFound
    // settlement
    | SnapshotMutated | ServiceInactive | PartialSnapshot | OlderSnapshot | Overdrawn | TariffNotInDollars
    // automatic top-up
    | BindingInvalid | RebindForbidden | StateConflict | OlderEvidence | AttemptNotFound
    | UpdateUnavailable | PredecessorChanged | PredecessorMissing | PaymentPending | RecoveryPending
    | SnapshotImmutable | AuthorityMissing
    | FundingInFlight | SubscriptionsActive | EvidenceInexact | SetupStateInvalid | SetupPending | SetupReopened
    // invoices
    | InvoiceNotFound | InvoiceNotReady | VoidReasonInvalid | InvoiceVoid | IssuerInactive | IssueConflict | VoidForbidden
    | DocumentImmutable | DocumentNotFound | DocumentBroken
    | ServiceTotalInvalid | TotalInvalid | CreditCurrencyMismatch | CreditExceedsTotal
    | PaymentInvalid | PaymentForbidden | PaymentAmountInvalid | IdempotencyConflict
}
