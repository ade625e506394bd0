/** Cancellations, refunds and the keyed financial events, with every write the cancellation service makes to them. */
module Ledger {
  import opened Wrappers
  import opened Policy
  import opened Calendar
  import opened EventKeys

  type Id = string

  datatype Initiator = Agent | Vendor | Admin

  datatype FinancialState = PendingFinancial | NoRefund | PartialRefund | RefundPending | Refunded | RefundFailed

  datatype RefundStatus = Pending | Confirmed | Failed

  datatype Resolution = Resolution(charge: int, refund: int, reason: string)

  /** What is written once, when the cancellation is filed. */
  datatype Facts = Facts(
    initiator: Initiator, byUser: Id, byTenant: Option<Id>, category: string, reason: string, cancelledAt: int,
    timezone: string, serviceDay: CivilDate, cancelDay: CivilDate, daysBefore: int,
    policyFingerprint: Option<string>, matchedRule: Option<Rule>, key: Option<string>, requestFingerprint: string)

  datatype Cancellation = Cancellation(
    booking: Id, facts: Facts, bookingAmount: int, currency: string,
    charge: int, entitlement: int, state: FinancialState, resolution: Option<Resolution>)

  datatype Refund = Refund(
    booking: Id, cancellation: Id, amount: int, currency: string, status: RefundStatus,
    reference: Option<string>, failureReason: Option<string>, version: int, createdBy: Id)

  datatype EventKind =
    BookingConfirmedEvent | BookingCancelledEvent | ResolvedEvent | RefundCreatedEvent | RefundConfirmedEvent | RefundFailedEvent

  datatype EventStatus = Posted | Awaiting | Unsuccessful

  datatype FinancialEvent = FinancialEvent(
    kind: EventKind, status: EventStatus, booking: Id, vendor: Id, cancellation: Option<Id>, refund: Option<Id>,
    currency: string, amount: Option<int>, note: Note)

  /** Who wrote the event and why, and the bank reference of a confirmed refund. */
  datatype Note = Note(actor: Option<Id>, reason: Option<string>, reference: Option<string>)

  /** The unique columns BookingCancellation.bookingId and Refund.cancellationId are kept as indexes. */
  datatype Ledger = Ledger(
    cancellations: map<Id, Cancellation>, cancellationOf: map<Id, Id>,
    refunds: map<Id, Refund>, refundOf: map<Id, Id>,
    events: map<EventKey, FinancialEvent>)

  datatype StockNews = HoldPlaced | HoldReleased | HoldExpired | HoldConverted | AllocationMade | AllocationFreed

  datatype BookingNews = Created | BookingConfirmed | BookingRejected | BookingExpired | FailedOver | Redeemed | Completed

  /** Outbox messages, in the order they are written. */
  datatype Message =
    | StockMessage(news: StockNews, row: Id)
    | BookingMessage(bookingNews: BookingNews, booking: Id)
    | BookingCancelled(booking: Id, initiator: Initiator, state: FinancialState)
    | FinancialResolved(cancellation: Id, booking: Id, charge: int, entitlement: int, state: FinancialState)
    | RefundCreated(refund: Id, booking: Id, cancellation: Id, amount: int)
    | RefundConfirmed(refund: Id, booking: Id, cancellation: Id, amount: int, reference: string)
    | RefundFailed(refund: Id, booking: Id, cancellation: Id, amount: int, reason: string)
    | RefundRetried(refund: Id, booking: Id, cancellation: Id, amount: int)

  type Entry = Tx<(Ledger, seq<Message>)>

  // ---------- writes ----------

  /** Upsert with an empty update: an event under a key already present is silently dropped. */
  function Post(l: Ledger, key: EventKey, e: FinancialEvent): Tx<Ledger> {
    if e.vendor == "" then Abort(VendorTenantMissing)
    else if key in l.events then Commit(l)
    else Commit(l.(events := l.events[key := e]))
  }

  function FileCancellation(l: Ledger, cid: Id, c: Cancellation): Tx<Ledger> {
    if cid in l.cancellations || c.booking in l.cancellationOf then Abort(UniqueViolation)
    else if c.bookingAmount < 0 || c.charge < 0 || c.entitlement < 0 then Abort(CheckViolation)
    else Commit(l.(cancellations := l.cancellations[cid := c], cancellationOf := l.cancellationOf[c.booking := cid]))
  }

  function CreatedEvent(vendor: Id, cid: Id, rid: Id, c: Cancellation, amount: int): FinancialEvent {
    FinancialEvent(RefundCreatedEvent, Awaiting, c.booking, vendor, Some(cid), Some(rid), c.currency, Some(amount), Note(None, None, None))
  }

  function OpenRefund(l: Ledger, vendor: Id, rid: Id, cid: Id, c: Cancellation, amount: int, user: Id): Entry {
    if amount <= 0 then Abort(RefundAmountNotPositive)
    else if rid in l.refunds || cid in l.refundOf then Abort(UniqueViolation)
    else
      var refund := Refund(c.booking, cid, amount, c.currency, RefundStatus.Pending, None, None, 1, user);
      var l1 := l.(refunds := l.refunds[rid := refund], refundOf := l.refundOf[cid := rid]);
      var l2 :- Post(l1, RefundCreatedKey(rid), CreatedEvent(vendor, cid, rid, c, amount));
      Commit((l2, [RefundCreated(rid, c.booking, cid, amount)]))
  }

  function CancelledEvent(vendor: Id, cid: Id, c: Cancellation): FinancialEvent {
    var note := Note(Some(c.facts.byUser), Some(c.facts.reason), None);
    if c.facts.initiator.Agent?
    then FinancialEvent(BookingCancelledEvent, Posted, c.booking, vendor, Some(cid), None, c.currency, Some(c.charge), note)
    else FinancialEvent(BookingCancelledEvent, Awaiting, c.booking, vendor, Some(cid), None, c.currency, None, note)
  }

  /** Every ledger write of a cancellation: the row, its event and, when a refund is due, the refund. */
  function Record(l: Ledger, vendor: Id, cid: Id, c: Cancellation, rid: Id): Entry {
    var l1 :- FileCancellation(l, cid, c);
    var l2 :- Post(l1, BookingCancelledKey(c.booking), CancelledEvent(vendor, cid, c));
    if c.state.RefundPending? then OpenRefund(l2, vendor, rid, cid, c, c.entitlement, c.facts.byUser)
    else Commit((l2, []))
  }

  function ResolvedEventOf(vendor: Id, cid: Id, c: Cancellation, user: Id): FinancialEvent
    requires c.resolution.Some?
  {
    FinancialEvent(ResolvedEvent, Posted, c.booking, vendor, Some(cid), None, c.currency, Some(c.charge),
                   Note(Some(user), Some(c.resolution.value.reason), None))
  }

  /** Finance settles a pending cancellation: the split must add up to the booking amount exactly. */
  function Resolve(l: Ledger, vendor: Id, cid: Id, charge: int, refund: int, reason: string, rid: Id, user: Id): Entry {
    if cid !in l.cancellations then Abort(NotFound)
    else
      var c := l.cancellations[cid];
      if c.state != PendingFinancial then Abort(FinancialStateNotPending)
      else if cid in l.refundOf then Abort(FinancialStateAlreadyResolved)
      else if charge < 0 || refund < 0 then Abort(AmountNegative)
      else if charge > c.bookingAmount then Abort(ChargeExceedsAmount)
      else if refund > c.bookingAmount then Abort(RefundExceedsAmount)
      else if charge + refund != c.bookingAmount then Abort(TotalMismatch)
      else
        var state := if refund == 0 then NoRefund else RefundPending;
        var c1 := c.(charge := charge, entitlement := refund, state := state, resolution := Some(Resolution(charge, refund, reason)));
        var l1 :- Post(l.(cancellations := l.cancellations[cid := c1]), ResolvedKey(cid), ResolvedEventOf(vendor, cid, c1, user));
        var (l2, news) :- if refund == 0 then Commit((l1, [])) else OpenRefund(l1, vendor, rid, cid, c1, refund, user);
        Commit((l2, news + [FinancialResolved(cid, c.booking, charge, refund, state)]))
  }

  datatype RefundAction = ConfirmWith(reference: string) | FailWith(reason: string) | Retry

  function SettledEvent(vendor: Id, rid: Id, f: Refund, action: RefundAction, user: Id): FinancialEvent
    requires !action.Retry?
  {
    match action
    case ConfirmWith(reference) =>
      FinancialEvent(RefundConfirmedEvent, Posted, f.booking, vendor, Some(f.cancellation), Some(rid), f.currency, Some(f.amount),
                     Note(Some(user), None, Some(reference)))
    case FailWith(reason) =>
      FinancialEvent(RefundFailedEvent, Unsuccessful, f.booking, vendor, Some(f.cancellation), Some(rid), f.currency, Some(f.amount),
                     Note(Some(user), Some(reason), None))
  }

  function RetryRefund(l: Ledger, rid: Id, f: Refund): Entry {
    var f1 := f.(status := RefundStatus.Pending, failureReason := None, version := f.version + 1);
    if f.cancellation !in l.cancellations || l.cancellations[f.cancellation].state != FinancialState.RefundFailed
    then Abort(RefundRetryStateMismatch)
    else
      var c1 := l.cancellations[f.cancellation].(state := RefundPending);
      Commit((l.(refunds := l.refunds[rid := f1], cancellations := l.cancellations[f.cancellation := c1]),
              [RefundRetried(rid, f.booking, f.cancellation, f.amount)]))
  }

  function SettleRefund(l: Ledger, vendor: Id, rid: Id, f: Refund, action: RefundAction, user: Id): Entry
    requires !action.Retry?
  {
    var confirmed := action.ConfirmWith?;
    var f1 := if confirmed then f.(status := RefundStatus.Confirmed, reference := Some(action.reference), version := f.version + 1)
              else f.(status := RefundStatus.Failed, failureReason := Some(action.reason), version := f.version + 1);
    if f.cancellation !in l.cancellations then Abort(NotFound)
    else
      var c1 := l.cancellations[f.cancellation].(state := if confirmed then Refunded else FinancialState.RefundFailed);
      var l1 := l.(refunds := l.refunds[rid := f1], cancellations := l.cancellations[f.cancellation := c1]);
      var key := if confirmed then RefundConfirmedKey(rid, f.version + 1) else RefundFailedKey(rid, f.version + 1);
      var l2 :- Post(l1, key, SettledEvent(vendor, rid, f, action, user));
      Commit((l2, [if confirmed then RefundConfirmed(rid, f.booking, f.cancellation, f.amount, action.reference)
                   else Message.RefundFailed(rid, f.booking, f.cancellation, f.amount, action.reason)]))
  }

  /** One refund transition under the refund's row lock; repeats of a settled outcome change nothing. */
  function Transition(l: Ledger, vendor: Id, rid: Id, action: RefundAction, user: Id): Entry {
    if rid !in l.refunds then Abort(NotFound)
    else
      var f := l.refunds[rid];
      if action.ConfirmWith? && f.status == RefundStatus.Confirmed then
        if f.reference == Some(action.reference) then Commit((l, [])) else Abort(RefundConfirmedOtherReference)
      else if action.FailWith? && f.status == RefundStatus.Failed then Commit((l, []))
      else if action.Retry? && f.status != RefundStatus.Failed then Abort(RefundRetryRequiresFailed)
      else if !action.Retry? && f.status != RefundStatus.Pending then Abort(RefundNotPending)
      else if action.Retry? then RetryRefund(l, rid, f)
      else SettleRefund(l, vendor, rid, f, action, user)
  }
}
