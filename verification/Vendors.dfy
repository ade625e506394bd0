/** Under whose name money is booked: every financial event carries the vendor its booking has. */
module Vendors {
  import opened Wrappers
  import opened Terms
  import opened Stock
  import opened EventKeys
  import opened Ledger
  import opened LedgerInvariant
  import opened LedgerReplay
  import opened Store
  import opened Ownership
  import opened StoreInvariant
  import opened Runs
  import opened History
  import opened Lifecycle
  import RequestFingerprint
  import Text

  type Id = string

  ghost predicate VendorTold(bs: map<Id, Booking>, e: FinancialEvent) {
    e.booking in bs && e.vendor == bs[e.booking].vendor
  }

  ghost predicate VendorsTold(s: State) {
    forall key :: key in s.ledger.events ==> VendorTold(s.bookings, s.ledger.events[key])
  }

  // ---------- a booking with events keeps its vendor ----------

  lemma CancellationBooking(s: State, cid: Id)
    requires StateValid(s) && cid in s.ledger.cancellations
    ensures var b := s.ledger.cancellations[cid].booking; b in s.bookings && s.bookings[b].recordType == Canonical && !IsPending(s.bookings[b].status)
  {
    hide StockValid, Owned, Mirrors, CountsTrue, AllLockstep, VersionsTold, EventsExact;
    assert BookingLinked(s.bookings, s.ledger, s.ledger.cancellations[cid].booking);
  }

  /** Only bookings that are no longer pending have events. */
  lemma EventBookingSettled(s: State, key: EventKey)
    requires StateValid(s) && key in s.ledger.events
    ensures var b := s.ledger.events[key].booking; b in s.bookings && s.bookings[b].recordType == Canonical && !IsPending(s.bookings[b].status)
  {
    hide StockValid, Owned, Mirrors, CountsTrue, AllLockstep, VersionsTold;
    var e := s.ledger.events[key];
    assert EventTrue(s.ledger, key, e);
    if key.BookingConfirmedKey? {
      assert BookingLinked(s.bookings, s.ledger, key.booking);
    } else {
      hide Linked;
      EventCancellation(s.ledger, key);
      CancellationBooking(s, e.cancellation.value);
    }
  }

  lemma EventCancellation(l: Ledger, key: EventKey)
    requires Indexed(l) && key in l.events && EventTrue(l, key, l.events[key]) && !key.BookingConfirmedKey?
    ensures var e := l.events[key]; e.cancellation.Some? && e.cancellation.value in l.cancellations
                                     && l.cancellations[e.cancellation.value].booking == e.booking
  {
    if RefundKey(key) { assert l.refunds[key.refund].cancellation in l.refundOf; }
  }

  lemma VendorStays(s: State, step: Step, id: Id)
    requires StateValid(s) && id in s.bookings && !IsPending(s.bookings[id].status)
    ensures id in Next(s, step).bookings && Next(s, step).bookings[id].vendor == s.bookings[id].vendor
  {
    hide StateValid, Next, AgentMoves, OperationMoves;
    StepLegal(s, step, id);
    MovesKeepVendor(s.bookings[id], Next(s, step).bookings[id], step);
  }

  lemma MovesKeepVendor(b: Booking, b': Booking, step: Step)
    requires !IsPending(b.status)
    ensures LegalMove(b, b', step) ==> b'.vendor == b.vendor
  {
  }

  // ---------- new events ----------

  /** Every event of l' that l does not have belongs to this booking and vendor. */
  ghost predicate NewUnder(l: Ledger, l': Ledger, booking: Id, vendor: Id) {
    forall key :: key in l'.events && key !in l.events ==> l'.events[key].booking == booking && l'.events[key].vendor == vendor
  }

  lemma RecordUnder(l: Ledger, vendor: Id, cid: Id, c: Cancellation, rid: Id)
    requires LedgerValid(l) && Record(l, vendor, cid, c, rid).Commit?
    ensures NewUnder(l, Record(l, vendor, cid, c, rid).value.0, c.booking, vendor)
  {
    hide Record, LedgerValid;
    RecordShape(l, vendor, cid, c, rid);
  }

  lemma ResolveUnder(l: Ledger, vendor: Id, cid: Id, charge: int, refund: int, reason: string, rid: Id, user: Id)
    requires LedgerValid(l) && Resolve(l, vendor, cid, charge, refund, reason, rid, user).Commit?
    ensures cid in l.cancellations
    ensures NewUnder(l, Resolve(l, vendor, cid, charge, refund, reason, rid, user).value.0, l.cancellations[cid].booking, vendor)
  {
    hide Resolve, LedgerValid;
    ResolveShape(l, vendor, cid, charge, refund, reason, rid, user);
  }

  lemma TransitionUnder(l: Ledger, vendor: Id, rid: Id, action: RefundAction, user: Id)
    requires LedgerValid(l) && Transition(l, vendor, rid, action, user).Commit?
    ensures rid in l.refunds
    ensures NewUnder(l, Transition(l, vendor, rid, action, user).value.0, l.refunds[rid].booking, vendor)
  {
    hide Transition, LedgerValid;
    TransitionShape(l, vendor, rid, action, user);
  }

  lemma PostUnder(l: Ledger, key: EventKey, e: FinancialEvent)
    requires Post(l, key, e).Commit?
    ensures NewUnder(l, Post(l, key, e).value, e.booking, e.vendor)
  {
  }

  /** New events of a step are booked under the vendor their booking has afterwards. */
  ghost predicate NewTold(s: State, s': State) {
    forall key :: key in s'.ledger.events && key !in s.ledger.events ==> VendorTold(s'.bookings, s'.ledger.events[key])
  }

  lemma CloseTold(s: State, id: Id, c: Cancellation, cid: Id, rid: Id, s': State)
    requires StateValid(s) && id in s.bookings && c.booking == id && Close(s, id, c, cid, rid) == Commit(s')
    ensures NewTold(s, s')
  {
    hide StockValid, Owned, Linked, Mirrors, CountsTrue, LedgerValid, Record, GiveBack, Close;
    CloseParts(s, id, c, cid, rid);
    RecordUnder(s.ledger, s.bookings[id].vendor, cid, c, rid);
  }

  lemma CancellingTold(s: State, step: Step)
    requires StateValid(s) && (step.AgentCancels? || step.OperationCancels?)
    ensures NewTold(s, Next(s, step))
  {
    hide StateValid, AgentTx, OperationalTx, Close, CalculationFor, AgentCancellation, OperationalCancellation, FreshCancellation, VendorTold;
    if StepTx(s, step).Commit? {
      match step
      case AgentCancels(r, d) =>
        AgentTxParts(s, r, d);
        if r.booking !in s.ledger.cancellationOf {
          var b := s.bookings[r.booking];
          var c := AgentCancellation(b, CalculationFor(r.booking, b, d.now, d.today), r, d.now);
          AgentCancellationNames(b, CalculationFor(r.booking, b, d.now, d.today), r, d.now);
          CloseTold(s, r.booking, c, d.cancellation, d.refund, Close(s, r.booking, c, d.cancellation, d.refund).value);
        }
      case OperationCancels(r, d) =>
        OperationalTxParts(s, r, d);
        if r.booking !in s.ledger.cancellationOf {
          CloseTold(s, r.booking, OperationalCancellation(s.bookings[r.booking], r, d), d.cancellation, d.refund, Close(s, r.booking, OperationalCancellation(s.bookings[r.booking], r, d), d.cancellation, d.refund).value);
        }
    }
  }

  lemma ResolvingTold(s: State, r: ResolutionRequest, rid: Id, s': State)
    requires StateValid(s) && ResolveTx(s, r, rid) == Commit(s')
    ensures NewTold(s, s')
  {
    hide StockValid, Owned, Linked, Mirrors, CountsTrue, LedgerValid, Resolve, Text.ParseMoney, RequestFingerprint.Trim;
    CancellationBooking(s, r.cancellation);
    ResolveUnder(s.ledger, VendorOf(s, s.ledger.cancellations[r.cancellation].booking), r.cancellation,
                 Text.ParseMoney(r.charge).value, Text.ParseMoney(r.refund).value, RequestFingerprint.Trim(r.reason), rid, r.user.sub);
  }

  lemma RefundBooking(s: State, rid: Id)
    requires StateValid(s) && rid in s.ledger.refunds
    ensures s.ledger.refunds[rid].booking in s.bookings
  {
    hide StockValid, Owned, Mirrors, CountsTrue, AllLockstep, VersionsTold, EventsExact, Linked;
    assert s.ledger.refunds[rid].cancellation in s.ledger.refundOf;
    CancellationBooking(s, s.ledger.refunds[rid].cancellation);
  }

  lemma RefundingTold(s: State, user: User, rid: Id, a: RefundAction, s': State)
    requires StateValid(s) && RefundTx(s, user, rid, a) == Commit(s')
    ensures NewTold(s, s')
  {
    hide StockValid, Owned, Linked, Mirrors, CountsTrue, LedgerValid, Transition, RefundActionFor;
    var vendor := if rid in s.ledger.refunds then VendorOf(s, s.ledger.refunds[rid].booking) else "";
    TransitionUnder(s.ledger, vendor, rid, RefundActionFor(a).value, user.sub);
    RefundBooking(s, rid);
  }

  lemma CreatingTold(s: State, n: NewBooking, s': State)
    requires CreateTx(s, n) == Commit(s')
    ensures NewTold(s, s')
  {
    if n.mode == Instant {
      CreateInstantParts(s, n);
      hide CreateTx, AllocateDirectly, Post;
      PostUnder(s.ledger, BookingConfirmedKey(n.id), ConfirmedEvent(BookingOf(n), n.id));
    }
  }

  lemma ConfirmingTold(s: State, id: Id, decider: Decider, now: int, clock: int, allocation: Id, site: Site, s': State)
    requires ConfirmTx(s, id, decider, now, clock, allocation, site) == Commit(s')
    ensures NewTold(s, s')
  {
    ConfirmParts(s, id, decider, now, clock, allocation, site);
    if Overdue(s.bookings[id], now) {
      hide ConfirmTx, FindActive, LeaveHold;
    } else {
      hide ConfirmTx, ConvertHold, Post, ExpireLocked;
      PostUnder(s.ledger, BookingConfirmedKey(id), ConfirmedEvent(Moved(s.bookings[id], BookingStatus.Confirmed), id));
    }
  }

  lemma SilentTold(s: State, step: Step)
    requires step.Rejects? || step.Expires? || step.Serves? || step.SetsCapacity?
    ensures Next(s, step).ledger == s.ledger
  {
    hide FindActive, LeaveHold, FailoverStock, AdjustCapacity, RequestFingerprint.Trim, FailedOverBooking;
  }

  lemma NewEventsTold(s: State, step: Step)
    requires StateValid(s)
    ensures NewTold(s, Next(s, step))
  {
    hide StateValid, ResolveTx, RefundTx, CreateTx, ConfirmTx, NewTold;
    SameTold(s);
    match step
    case AgentCancels(_, _) => CancellingTold(s, step);
    case OperationCancels(_, _) => CancellingTold(s, step);
    case FinanceResolves(r, rid) => if ResolveTx(s, r, rid).Commit? { ResolvingTold(s, r, rid, ResolveTx(s, r, rid).value); }
    case RefundMoves(user, rid, a) => if RefundTx(s, user, rid, a).Commit? { RefundingTold(s, user, rid, a, RefundTx(s, user, rid, a).value); }
    case Creates(n) => if CreateTx(s, n).Commit? { CreatingTold(s, n, CreateTx(s, n).value); }
    case Confirms(id, decider, now, clock, allocation, site) =>
      if ConfirmTx(s, id, decider, now, clock, allocation, site).Commit? { ConfirmingTold(s, id, decider, now, clock, allocation, site, ConfirmTx(s, id, decider, now, clock, allocation, site).value); }
    case Rejects(_, _, _, _, _) => SilentTold(s, step); SameEventsTold(s, Next(s, step));
    case Expires(_, _) => SilentTold(s, step); SameEventsTold(s, Next(s, step));
    case Serves(_, _, _) => SilentTold(s, step); SameEventsTold(s, Next(s, step));
    case SetsCapacity(_, _, _) => SilentTold(s, step); SameEventsTold(s, Next(s, step));
  }

  lemma SameTold(s: State)
    ensures NewTold(s, s)
  {
  }

  lemma SameEventsTold(s: State, s': State)
    requires s'.ledger == s.ledger
    ensures NewTold(s, s')
  {
  }

  // ---------- every run ----------

  lemma StepTold(s: State, step: Step)
    requires StateValid(s) && VendorsTold(s)
    ensures VendorsTold(Next(s, step))
  {
    hide StateValid, Next, BookingsGrow, StockGrows, FactsTrue;
    NewEventsTold(s, step);
    StepGrows(s, step);
    forall key | key in Next(s, step).ledger.events
      ensures VendorTold(Next(s, step).bookings, Next(s, step).ledger.events[key])
    {
      if key in s.ledger.events {
        EventBookingSettled(s, key);
        VendorStays(s, step, s.ledger.events[key].booking);
      }
    }
  }

  /** On every run each event of a booking carries the vendor the booking has, even after a failover changed suppliers. */
  lemma {:induction false} RunTold(s: State, steps: seq<Step>)
    requires StateValid(s) && VendorsTold(s)
    ensures VendorsTold(Run(s, steps))
    decreases |steps|
  {
    hide StateValid, Next, VendorsTold;
    if steps != [] {
      RunTold(s, steps[..|steps| - 1]);
      RunKeeps(s, steps[..|steps| - 1]);
      StepTold(Run(s, steps[..|steps| - 1]), steps[|steps| - 1]);
    }
  }
}
