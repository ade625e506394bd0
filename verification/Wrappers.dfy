/** Failure-compatible results shared by every module. */
module Wrappers {

  datatype Option<+T> = None | Some(value: T) {

    /** The value, or the default when there is none. */
    function GetOr(default: T): T {
      match this
      case Some(v) => v
      case None => default
    }
  }

  /** The reasons a transaction is refused, named after the codes the services throw. */
  datatype Error =
    | NotFound
    | IdempotencyKeyRequired
    | ReasonRequired
    | AckRequired
    | IdempotencyKeyReused
    | LegacyOnly
    | NotCancellable
    | SnapshotMissing
    | ServiceAlreadyStarted
    | PolicyMissing
    | PolicyInvalid
    | PolicyNoMatch
    | PolicyAmbiguous
    | TermsChanged
    | AllocationMissing
    | AllocationAmbiguous
    | HoldMissing
    | HoldAmbiguous
    | UniqueViolation
    | CheckViolation
    | VendorTenantMissing
    | MoneyMalformed
    | FinancialStateNotPending
    | FinancialStateAlreadyResolved
    | AmountNegative
    | ChargeExceedsAmount
    | RefundExceedsAmount
    | TotalMismatch
    | RefundAmountNotPositive
    | RefundReferenceRequired
    | RefundConfirmedOtherReference
    | RefundRetryRequiresFailed
    | RefundNotPending
    | RefundRetryStateMismatch
    | InventoryUnavailable
    | HoldQuantityConflict
    | HoldNotActive
    | HoldExpiryPassed
    | ConfirmationExpired
    | WrongStatus
    | Interrupted
    | Forbidden
    | NotPending
    | MakerCannotReview
    | TenantNotAgent
    | ChangePending
    | ValueInvalid
    | VersionMismatch
    | UnexpectedOwnership
    | PaymentMethodUnsupported

  /** A transaction either commits with a value or aborts and leaves nothing behind. */
  datatype Tx<+T> = Commit(value: T) | Abort(error: Error) {

    predicate IsFailure() {
      Abort?
    }

    function PropagateFailure<U>(): Tx<U>
      requires Abort?
    {
      Abort(error)
    }

    function Extract(): T
      requires Commit?
    {
      value
    }
  }
}
