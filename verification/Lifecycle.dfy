/** Who may move a booking, and where to. */
module Lifecycle {
  import opened Wrappers
  import opened Terms
  import opened Stock
  import opened Ledger
  import opened LedgerInvariant
  import opened Store
  import opened Ownership
  import opened StoreInvariant
  import RequestFingerprint
  import Text

  type Id = string

  /** The booking a step works on, if it works on one. */
  function Subject(step: Step): Option<Id> {
    match step
    case AgentCancels(r, _) => Some(r.booking)
    case OperationCancels(r, _) => Some(r.booking)
    case Creates(n) => Some(n.id)
    case Confirms(id, _, _, _, _, _) => Some(id)
    case Rejects(id, _, _, _, _) => Some(id)
    case Expires(id, _) => Some(id)
    case Serves(id, _, _) => Some(id)
    case _ => None
  }

  /** Only this booking's record and holds may differ. */
  ghost predicate Local(s: State, s': State, id: Id) {
    id in s'.bookings && s'.bookings == s.bookings[id := s'.bookings[id]] && SameHoldsElsewhere(s.stock, s'.stock, id)
  }

  /** What the working booking has become. */
  ghost predicate Became(s: State, s': State, id: Id, status: BookingStatus) {
    && Local(s, s', id) && id in s.bookings && s'.bookings[id] == Moved(s.bookings[id], status)
    && s.bookings[id].recordType == Canonical
  }

  /** The booking's own agent, from a cancellable status. */
  predicate AgentMoves(b: Booking, b': Booking, r: AgentRequest) {
    && r.user.role == TravelAgent && r.user.tenant == Some(b.agent)
    && Cancellable(b.status) && b' == Moved(b, BookingStatus.Cancelled)
  }

  /** The booking's own vendor, or an administrator. */
  predicate OperationMoves(b: Booking, b': Booking, r: OperationalRequest) {
    && (r.initiator == Vendor ==> r.user.role == VendorUser && r.user.tenant == Some(b.vendor))
    && Cancellable(b.status) && b' == Moved(b, BookingStatus.Cancelled)
  }

  /** The vendor a booking waits for, or an administrator for a manual one. */
  predicate Decides(decider: Decider, b: Booking) {
    match decider
    case ByVendor(tenant) => tenant == b.vendor && b.status == PendingVendor
    case ByAdmin => b.status == PendingManual
  }

  predicate RejectionMoves(b: Booking, b': Booking, decider: Decider, now: int, failover: Option<Failover>) {
    && Decides(decider, b)
    && (if Overdue(b, now) then b' == Moved(b, BookingStatus.ConfirmationExpired)
        else if decider.ByVendor? && failover.Some? then b' == FailedOverBooking(b, failover.value, now)
        else b' == Moved(b, if decider.ByVendor? then VendorRejected else ManualRejected))
  }

  predicate ServiceMoves(b: Booking, b': Booking, vendor: Id) {
    && vendor == b.vendor
    && ((b.status == BookingStatus.Confirmed && b' == Moved(b, BookingStatus.Redeemed))
        || (b.status == BookingStatus.Redeemed && b' == Moved(b, BookingStatus.Completed)))
  }

  /** The only ways a step may change an existing booking. */
  ghost predicate LegalMove(b: Booking, b': Booking, step: Step) {
    b.recordType == Canonical &&
    match step
    case AgentCancels(r, _) => AgentMoves(b, b', r)
    case OperationCancels(r, _) => OperationMoves(b, b', r)
    case Confirms(_, decider, now, _, _, _) =>
      Decides(decider, b) && b' == Moved(b, if Overdue(b, now) then BookingStatus.ConfirmationExpired else BookingStatus.Confirmed)
    case Rejects(_, decider, _, now, failover) => RejectionMoves(b, b', decider, now, failover)
    case Expires(_, now) => Due(b, now) && b' == Moved(b, BookingStatus.ConfirmationExpired)
    case Serves(_, vendor, _) => ServiceMoves(b, b', vendor)
    case _ => false
  }

  /** If a booking changed, the step was its own and the change is legal. */
  ghost predicate Legal(s: State, s': State, step: Step, id: Id) {
    id in s.bookings ==> id in s'.bookings && (s'.bookings[id] == s.bookings[id] || (Subject(step) == Some(id) && LegalMove(s.bookings[id], s'.bookings[id], step)))
  }

  // ---------- what a step that changes something does ----------

  /** Capacity of the booking, where its new status does not tell it: a failover leaves a hold exactly under a fresh key. */
  ghost predicate CapacityTold(s: State, s': State, step: Step) {
    match step
    case Creates(n) => n.mode != Instant ==> HasHold(s'.stock, n.id)
    case Rejects(id, decider, _, now, Some(f)) =>
      id in s.bookings && decider.ByVendor? && !Overdue(s.bookings[id], now) ==>
        if f.mode == Instant then FreshKey(s.stock, id, f) else HasHold(s'.stock, id) <==> FreshKey(s.stock, id, f)
    case Serves(_, _, _) => s'.stock == s.stock
    case _ => true
  }

  /** A booking is made, or one moves legally, and all others stay as they are; or none is touched at all. */
  ghost predicate Outcome(s: State, s': State, step: Step) {
    match Subject(step)
    case Some(id) =>
      && Local(s, s', id) && CapacityTold(s, s', step)
      && (if step.Creates? then id !in s.bookings && s'.bookings[id] == BookingOf(step.booking)
          else id in s.bookings && LegalMove(s.bookings[id], s'.bookings[id], step))
    case None =>
      s'.bookings == s.bookings && s'.stock.holds == s.stock.holds
  }

  lemma AgentOutcome(s: State, r: AgentRequest, d: Draw)
    requires StateValid(s) && AgentRefusal(r).None?
    ensures var s' := Next(s, AgentCancels(r, d)); s' == s || Outcome(s, s', AgentCancels(r, d))
  {
    hide StateValid, AgentTx, Close, CalculationFor, AgentCancellation, SameHoldsElsewhere, RequestFingerprint.Trim;
    if AgentTx(s, r, d).Commit? {
      AgentTxParts(s, r, d);
      AgentTxKeeps(s, r, d, AgentTx(s, r, d).value.0, AgentTx(s, r, d).value.1);
      if r.booking !in s.ledger.cancellationOf {
        var b := s.bookings[r.booking];
        CloseParts(s, r.booking, AgentCancellation(b, CalculationFor(r.booking, b, d.now, d.today), r, d.now), d.cancellation, d.refund);
      }
    }
  }

  lemma OperationalOutcome(s: State, r: OperationalRequest, d: Draw)
    requires StateValid(s) && OperationalRefusal(r).None?
    ensures var s' := Next(s, OperationCancels(r, d)); s' == s || Outcome(s, s', OperationCancels(r, d))
  {
    hide StateValid, OperationalTx, Close, OperationalCancellation, SameHoldsElsewhere, FreshCancellation, RequestFingerprint.Trim;
    if OperationalTx(s, r, d).Commit? {
      OperationalTxParts(s, r, d);
      OperationalTxKeeps(s, r, d, OperationalTx(s, r, d).value.0, OperationalTx(s, r, d).value.1);
      if r.booking !in s.ledger.cancellationOf {
        CloseParts(s, r.booking, OperationalCancellation(s.bookings[r.booking], r, d), d.cancellation, d.refund);
      }
    }
  }

  lemma DecisionOutcome(s: State, step: Step)
    requires StateValid(s) && (step.Confirms? || step.Rejects?) && StepTx(s, step).Commit?
    ensures Outcome(s, Next(s, step), step)
  {
    hide StateValid, SameHoldsElsewhere, HasHold, FreshKey, ConvertHold, LeaveHold, Post, ConfirmedEvent, FailoverStock, FailedOverBooking, FindActive, RequestFingerprint.Trim;
    match step
    case Confirms(id, decider, now, clock, allocation, site) => ConfirmTxKeeps(s, id, decider, now, clock, allocation, site, ConfirmTx(s, id, decider, now, clock, allocation, site).value);
    case Rejects(id, decider, reason, now, failover) =>
      RejectTxKeeps(s, id, decider, reason, now, failover, RejectTx(s, id, decider, reason, now, failover).value);
      if decider.ByVendor? && failover.Some? && !Overdue(s.bookings[id], now) { FailoverTxKeeps(s, id, failover.value, now, FailoverTx(s, id, failover.value, now).value); }
  }

  lemma CreationOutcome(s: State, n: NewBooking)
    requires StateValid(s) && CreateTx(s, n).Commit?
    ensures Outcome(s, Next(s, Creates(n)), Creates(n))
  {
    hide StateValid, SameHoldsElsewhere, HasHold, AllocateDirectly, PlaceHold, Post, ConfirmedEvent;
    if n.mode == Instant { CreateInstantKeeps(s, n, CreateTx(s, n).value); } else { CreatePendingKeeps(s, n, CreateTx(s, n).value); }
  }

  lemma NothingElsewhere(k: Stock, id: Id)
    ensures SameHoldsElsewhere(k, k, id)
  {
  }

  lemma OtherOutcome(s: State, step: Step)
    requires StateValid(s) && (Subject(step).None? || step.Expires? || step.Serves?) && StepTx(s, step).Commit? && Next(s, step) != s
    ensures Outcome(s, Next(s, step), step)
  {
    hide StateValid, Resolve, Transition, AdjustCapacity, LeaveHold, SameHoldsElsewhere, FindActive, RefundActionFor, VendorOf, Text.ParseMoney,
         RequestFingerprint.Trim;
    match step
    case FinanceResolves(r, rid) => ResolveTxKeeps(s, r, rid, ResolveTx(s, r, rid).value);
    case RefundMoves(user, rid, action) => RefundTxKeeps(s, user, rid, action, RefundTx(s, user, rid, action).value);
    case Expires(id, now) => ExpireLockedKeeps(s, id, ExpireLocked(s, id).value);
    case Serves(id, vendor, news) => ServeTxKeeps(s, id, vendor, news, ServeTx(s, id, vendor, news).value); NothingElsewhere(s.stock, id);
    case SetsCapacity(session, total, blocked) => CapacityTxKeeps(s, session, total, blocked, CapacityTx(s, session, total, blocked).value);
  }

  /** Whatever a step changes, it changes one booking along its lifecycle, or makes one, or leaves them all alone. */
  lemma StepOutcome(s: State, step: Step)
    requires StateValid(s)
    ensures Next(s, step) == s || (StepTx(s, step).Commit? && Outcome(s, Next(s, step), step))
  {
    hide StateValid, AgentTx, OperationalTx, CreateTx, ConfirmTx, RejectTx, ResolveTx, RefundTx, ServeTx, ExpireTx, CapacityTx, Outcome, AgentRefusal,
         OperationalRefusal;
    if StepTx(s, step).Commit? && Next(s, step) != s {
      match step
      case AgentCancels(r, d) => AgentOutcome(s, r, d);
      case OperationCancels(r, d) => OperationalOutcome(s, r, d);
      case Creates(n) => CreationOutcome(s, n);
      case Confirms(_, _, _, _, _, _) => DecisionOutcome(s, step);
      case Rejects(_, _, _, _, _) => DecisionOutcome(s, step);
      case _ => OtherOutcome(s, step);
    }
  }

  /** Nobody but its own agent, its own vendor, an administrator or its deadline changes a booking, and only along its lifecycle. */
  lemma StepLegal(s: State, step: Step, id: Id)
    requires StateValid(s)
    ensures Legal(s, Next(s, step), step, id)
  {
    hide StateValid, Next, StepTx, LegalMove, CapacityTold, SameHoldsElsewhere;
    StepOutcome(s, step);
  }
}
