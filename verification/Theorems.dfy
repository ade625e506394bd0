/** What holds after every run that starts before the first canonical booking. */
module Theorems {
  import opened Sums
  import opened Wrappers
  import opened Terms
  import opened Stock
  import opened EventKeys
  import opened Ledger
  import opened LedgerInvariant
  import opened LedgerReplay
  import opened Store
  import opened Ownership
  import opened StoreInvariant
  import opened Runs
  import opened Lifecycle
  import opened Capacity
  import opened History

  type Id = string

  lemma ReachedIsValid(start: State, steps: seq<Step>)
    requires Initial(start)
    ensures StateValid(Run(start, steps))
  {
    hide Run, StateValid, Initial;
    InitialIsValid(start);
    RunKeeps(start, steps);
  }

  // ---------- money ----------

  /** A refund exists exactly in the three refund states, with the matching status and the whole entitlement. */
  ghost predicate InStep(l: Ledger, cid: Id, state: FinancialState, status: RefundStatus)
    requires cid in l.cancellations
  {
    l.cancellations[cid].state == state <==>
      && cid in l.refundOf && l.refundOf[cid] in l.refunds && l.refunds[l.refundOf[cid]].status == status
      && l.refunds[l.refundOf[cid]].amount == l.cancellations[cid].entitlement > 0
  }

  lemma MoneyOnEveryRun(start: State, steps: seq<Step>, cid: Id)
    requires Initial(start) && cid in Run(start, steps).ledger.cancellations
    ensures var l := Run(start, steps).ledger;
            var c := l.cancellations[cid];
            && InStep(l, cid, RefundPending, RefundStatus.Pending)
            && InStep(l, cid, Refunded, RefundStatus.Confirmed)
            && InStep(l, cid, FinancialState.RefundFailed, RefundStatus.Failed)
            && (c.state == NoRefund || c.state == PendingFinancial ==> cid !in l.refundOf)
            && c.state != PartialRefund
            && c.charge >= 0 && c.entitlement >= 0 && c.bookingAmount >= 0
            && (if c.state == PendingFinancial then c.charge == c.entitlement == 0 else c.charge + c.entitlement == c.bookingAmount)
  {
    ReachedIsValid(start, steps);
    MoneyNow(Run(start, steps), cid);
  }

  lemma MoneyNow(s: State, cid: Id)
    requires StateValid(s) && cid in s.ledger.cancellations
    ensures var l := s.ledger;
            var c := l.cancellations[cid];
            && InStep(l, cid, RefundPending, RefundStatus.Pending)
            && InStep(l, cid, Refunded, RefundStatus.Confirmed)
            && InStep(l, cid, FinancialState.RefundFailed, RefundStatus.Failed)
            && (c.state == NoRefund || c.state == PendingFinancial ==> cid !in l.refundOf)
            && c.state != PartialRefund
            && c.charge >= 0 && c.entitlement >= 0 && c.bookingAmount >= 0
            && (if c.state == PendingFinancial then c.charge == c.entitlement == 0 else c.charge + c.entitlement == c.bookingAmount)
  {
    hide StockValid, Owned, Linked, Mirrors, CountsTrue, VersionsTold, EventsExact;
    assert Lockstep(s.ledger, cid);
  }

  /** The log pays a cancellation its entitlement once it is refunded and nothing otherwise, whatever failed in between. */
  lemma PaidOnceOnEveryRun(start: State, steps: seq<Step>, cid: Id)
    requires Initial(start) && cid in Run(start, steps).ledger.cancellations
    ensures var l := Run(start, steps).ledger;
            Paid(l, cid) == if l.cancellations[cid].state == Refunded then l.cancellations[cid].entitlement else 0
  {
    hide Run, StockValid, Owned, Linked, Mirrors, CountsTrue, LedgerValid, Paid;
    ReachedIsValid(start, steps);
    PaidExactlyOnce(Run(start, steps).ledger, cid);
  }

  /** REFUND_FAILED events are exactly the failures reported, and the version alone tells how many there were. */
  lemma FailuresCountedOnEveryRun(start: State, steps: seq<Step>, rid: Id)
    requires Initial(start)
    ensures var s := Run(start, steps);
            && LoggedFailures(s.ledger, rid) == ReportedFailures(s.outbox, rid)
            && (rid in s.ledger.refunds ==> LoggedFailures(s.ledger, rid) == FailuresAt(s.ledger.refunds[rid]))
  {
    hide Run, StockValid, Owned, Linked, Mirrors, LedgerValid;
    ReachedIsValid(start, steps);
  }

  /** The log holds an event under a key exactly when the tables say it should have been written. */
  lemma LogExactOnEveryRun(start: State, steps: seq<Step>, key: EventKey)
    requires Initial(start) && !key.BookingConfirmedKey?
    ensures var l := Run(start, steps).ledger;
            (key in l.events <==> KeyDue(l, key)) && (key in l.events ==> EventTrue(l, key, l.events[key]))
  {
    hide Run, StockValid, Owned, Linked, Mirrors, CountsTrue, KeyDue, EventTrue;
    ReachedIsValid(start, steps);
  }

  /** However often a refund failed and was retried, at most one REFUND_CONFIRMED event exists for it. */
  lemma OneConfirmationOnEveryRun(start: State, steps: seq<Step>, rid: Id, v: int, w: int)
    requires Initial(start)
    requires RefundConfirmedKey(rid, v) in Run(start, steps).ledger.events && RefundConfirmedKey(rid, w) in Run(start, steps).ledger.events
    ensures v == w
  {
    LogExactOnEveryRun(start, steps, RefundConfirmedKey(rid, v));
    LogExactOnEveryRun(start, steps, RefundConfirmedKey(rid, w));
    hide Run;
  }

  /** Reading the outbox from the beginning tells every booking's financial state, resolved split, refund status, amount and
      reference. */
  lemma ReplayOnEveryRun(start: State, steps: seq<Step>, b: Id)
    requires Initial(start)
    ensures var s := Run(start, steps); Replay(s.outbox, b) == ViewOf(s.ledger, b)
  {
    hide Run, StockValid, Owned, Linked, CountsTrue, LedgerValid, Replay, ViewOf;
    ReachedIsValid(start, steps);
  }

  // ---------- capacity ----------

  /** Held and confirmed counters are the sums over live holds and allocations, and no session is oversold. */
  lemma CapacityOnEveryRun(start: State, steps: seq<Step>, session: Id)
    requires Initial(start) && session in Run(start, steps).stock.counters
    ensures var k := Run(start, steps).stock;
            var c := k.counters[session];
            && c.held == SumOver(k.holds, HeldWeight(session)) && c.confirmed == SumOver(k.allocations, ConfirmedWeight(session))
            && 0 <= c.blocked && 0 <= c.held && 0 <= c.confirmed && c.blocked + c.held + c.confirmed <= c.total
  {
    hide Run, Owned, Linked, MoneyValid;
    ReachedIsValid(start, steps);
    assert CountersTrue(Run(start, steps).stock, session);
    NeverOversold(Run(start, steps).stock, session);
  }

  /** A canonical booking is cancelled exactly when it has a cancellation, and then it owns no live capacity; a live booking
      owns exactly one allocation; no booking ever owns two holds or two allocations. */
  lemma OwnershipOnEveryRun(start: State, steps: seq<Step>, b: Id)
    requires Initial(start) && b in Run(start, steps).bookings && Run(start, steps).bookings[b].recordType == Canonical
    ensures var s := Run(start, steps);
            var status := s.bookings[b].status;
            && (status == BookingStatus.Cancelled <==> b in s.ledger.cancellationOf)
            && (!IsPending(status) ==> ActiveHolds(s.stock, b) == {})
            && (Live(status) <==> |ConfirmedAllocations(s.stock, b)| == 1)
            && (!Live(status) ==> ConfirmedAllocations(s.stock, b) == {})
            && |ActiveHolds(s.stock, b)| <= 1
  {
    ReachedIsValid(start, steps);
    hide Run;
    OwnershipNow(Run(start, steps), b);
  }

  lemma AtMostOne(xs: set<Id>)
    requires forall x, y :: x in xs && y in xs ==> x == y
    ensures |xs| <= 1
  {
    if xs != {} {
      var x :| x in xs;
      assert xs == {x};
    }
  }

  lemma HoldsNow(bs: map<Id, Booking>, k: Stock, b: Id)
    requires HoldsOwned(bs, k) && b in bs
    ensures !IsPending(bs[b].status) ==> ActiveHolds(k, b) == {}
    ensures |ActiveHolds(k, b)| <= 1
  {
    forall h | h in ActiveHolds(k, b)
      ensures IsPending(bs[b].status)
    {
      assert HoldOwned(bs, k.holds[h]);
    }
    AtMostOne(ActiveHolds(k, b));
  }

  lemma AllocationsNow(bs: map<Id, Booking>, k: Stock, b: Id)
    requires AllocationsOwned(bs, k) && b in bs && bs[b].recordType == Canonical
    ensures Live(bs[b].status) <==> |ConfirmedAllocations(k, b)| == 1
    ensures !Live(bs[b].status) ==> ConfirmedAllocations(k, b) == {}
  {
    forall a | a in ConfirmedAllocations(k, b)
      ensures Live(bs[b].status)
    {
      assert AllocationOwned(bs, k.allocations[a]);
    }
    if Live(bs[b].status) {
      assert HasAllocation(k, b);
      var a :| a in k.allocations && k.allocations[a].booking == b && k.allocations[a].status == AllocationConfirmed;
      assert ConfirmedAllocations(k, b) == {a};
    }
  }

  lemma OwnershipNow(s: State, b: Id)
    requires StateValid(s) && b in s.bookings && s.bookings[b].recordType == Canonical
    ensures var status := s.bookings[b].status;
            && (status == BookingStatus.Cancelled <==> b in s.ledger.cancellationOf)
            && (!IsPending(status) ==> ActiveHolds(s.stock, b) == {})
            && (Live(status) <==> |ConfirmedAllocations(s.stock, b)| == 1)
            && (!Live(status) ==> ConfirmedAllocations(s.stock, b) == {})
            && |ActiveHolds(s.stock, b)| <= 1
  {
    hide StockValid, MoneyValid, HoldsOwned, AllocationsOwned;
    HoldsNow(s.bookings, s.stock, b);
    AllocationsNow(s.bookings, s.stock, b);
    assert BookingLinked(s.bookings, s.ledger, b);
  }

  // ---------- at most once ----------

  /** How often a hold leaves ACTIVE, and an allocation leaves CONFIRMED, along a run. */
  ghost function TimesHoldLeft(start: State, steps: seq<Step>, h: Id): nat
    decreases |steps|
  {
    if steps == [] then 0
    else
      var before := Run(start, steps[..|steps| - 1]);
      TimesHoldLeft(start, steps[..|steps| - 1], h)
      + (if IsActive(before, h) && !IsActive(Next(before, steps[|steps| - 1]), h) then 1 else 0)
  }

  predicate IsActive(s: State, h: Id) {
    h in s.stock.holds && s.stock.holds[h].status == Active
  }

  predicate IsAllocated(s: State, a: Id) {
    a in s.stock.allocations && s.stock.allocations[a].status == AllocationConfirmed
  }

  ghost function TimesAllocationLeft(start: State, steps: seq<Step>, a: Id): nat
    decreases |steps|
  {
    if steps == [] then 0
    else
      var before := Run(start, steps[..|steps| - 1]);
      TimesAllocationLeft(start, steps[..|steps| - 1], a)
      + (if IsAllocated(before, a) && !IsAllocated(Next(before, steps[|steps| - 1]), a) then 1 else 0)
  }

  lemma GoneStaysGone(s: State, s': State, row: Id)
    requires Grows(s, s')
    ensures row in s.stock.holds ==> row in s'.stock.holds && (s.stock.holds[row].status != Active ==> s'.stock.holds[row].status != Active)
    ensures row in s.stock.allocations ==>
              row in s'.stock.allocations
              && (s.stock.allocations[row].status == AllocationReleased ==> s'.stock.allocations[row].status == AllocationReleased)
  {
    hide BookingsGrow, LedgerGrows;
  }

  /** A hold leaves ACTIVE at most once on any run, and not at all while it is active. */
  lemma {:induction false} HoldLeavesOnce(start: State, steps: seq<Step>, h: Id)
    requires StateValid(start)
    ensures TimesHoldLeft(start, steps, h) <= 1
    ensures h !in Run(start, steps).stock.holds || IsActive(Run(start, steps), h) ==> TimesHoldLeft(start, steps, h) == 0
    decreases |steps|
  {
    hide StateValid, Next, Grows;
    if steps != [] {
      var before := Run(start, steps[..|steps| - 1]);
      HoldLeavesOnce(start, steps[..|steps| - 1], h);
      RunKeeps(start, steps[..|steps| - 1]);
      StepGrows(before, steps[|steps| - 1]);
      GoneStaysGone(before, Next(before, steps[|steps| - 1]), h);
    }
  }

  /** An allocation leaves CONFIRMED at most once on any run, and not at all while it is confirmed. */
  lemma {:induction false} AllocationLeavesOnce(start: State, steps: seq<Step>, a: Id)
    requires StateValid(start)
    ensures TimesAllocationLeft(start, steps, a) <= 1
    ensures a !in Run(start, steps).stock.allocations || IsAllocated(Run(start, steps), a) ==> TimesAllocationLeft(start, steps, a) == 0
    decreases |steps|
  {
    hide StateValid, Next, Grows;
    if steps != [] {
      var before := Run(start, steps[..|steps| - 1]);
      AllocationLeavesOnce(start, steps[..|steps| - 1], a);
      RunKeeps(start, steps[..|steps| - 1]);
      StepGrows(before, steps[|steps| - 1]);
      GoneStaysGone(before, Next(before, steps[|steps| - 1]), a);
    }
  }

  // ---------- a gap in the log ----------

  /** A failover to an instant supplier confirms the booking, yet no BOOKING_CONFIRMED event is written for it. */
  lemma FailoverConfirmsSilently(s: State, id: Id, f: Failover, now: int, s': State)
    requires StateValid(s) && id in s.bookings && s.bookings[id].recordType == Canonical && IsPending(s.bookings[id].status)
    requires f.mode == Instant && FailoverTx(s, id, f, now) == Commit(s')
    ensures s'.bookings[id].status == BookingStatus.Confirmed
    ensures BookingConfirmedKey(id) !in s'.ledger.events
  {
    hide StockValid, Owned, MoneyValid, FailoverStock;
    assert BookingLinked(s.bookings, s.ledger, id);
  }

  /** The step makes the booking confirmed. */
  ghost predicate Confirming(s: State, s': State, id: Id) {
    && id in s'.bookings && s'.bookings[id].status == BookingStatus.Confirmed
    && (id in s.bookings ==> s.bookings[id].status != BookingStatus.Confirmed)
  }

  /** Only three kinds of step confirm a booking. */
  lemma ConfirmingSteps(s: State, s': State, step: Step, id: Id)
    requires Outcome(s, s', step) && Confirming(s, s', id)
    ensures Subject(step) == Some(id)
    ensures || (step.Creates? && step.booking.mode == Instant)
            || (step.Confirms? && id in s.bookings && !Overdue(s.bookings[id], step.now))
            || (FailsOver(s, step) && step.failover.value.mode == Instant)
  {
    hide SameHoldsElsewhere, CapacityTold;
  }

  lemma PostedKey(l: Ledger, id: Id, e: FinancialEvent)
    requires Post(l, BookingConfirmedKey(id), e).Commit?
    ensures BookingConfirmedKey(id) in Post(l, BookingConfirmedKey(id), e).value.events
  {
  }

  lemma CreationIsLogged(s: State, n: NewBooking, s': State)
    requires n.mode == Instant && CreateTx(s, n) == Commit(s')
    ensures BookingConfirmedKey(n.id) in s'.ledger.events
  {
    hide CreateTx, AllocateDirectly, Post;
    CreateInstantParts(s, n);
    PostedKey(s.ledger, n.id, ConfirmedEvent(BookingOf(n), n.id));
  }

  lemma ConfirmationIsLogged(s: State, id: Id, decider: Decider, now: int, clock: int, allocation: Id, site: Site, s': State)
    requires ConfirmTx(s, id, decider, now, clock, allocation, site) == Commit(s') && id in s.bookings && !Overdue(s.bookings[id], now)
    ensures BookingConfirmedKey(id) in s'.ledger.events
  {
    hide ConfirmTx, ConvertHold, Post, ExpireLocked;
    ConfirmParts(s, id, decider, now, clock, allocation, site);
    PostedKey(s.ledger, id, ConfirmedEvent(Moved(s.bookings[id], BookingStatus.Confirmed), id));
  }

  /** A booking that becomes confirmed gets its BOOKING_CONFIRMED event unless, and only unless, a failover confirmed it. */
  lemma ConfirmationLoggedExactly(s: State, step: Step, id: Id)
    requires StateValid(s) && Confirming(s, Next(s, step), id)
    ensures BookingConfirmedKey(id) in Next(s, step).ledger.events <==> !step.Rejects?
  {
    hide StateValid, Confirming, Outcome, CreateTx, ConfirmTx, RejectTx, FailoverTx, ExpireLocked, AgentTx, OperationalTx, ResolveTx, RefundTx;
    assert Next(s, step) != s by { ConfirmingChanges(s, Next(s, step), id); }
    StepOutcome(s, step);
    ConfirmingSteps(s, Next(s, step), step, id);
    match step
    case Creates(n) => CreationIsLogged(s, n, CreateTx(s, n).value);
    case Confirms(_, decider, now, clock, allocation, site) => ConfirmationIsLogged(s, id, decider, now, clock, allocation, site, ConfirmTx(s, id, decider, now, clock, allocation, site).value);
    case Rejects(_, decider, reason, now, failover) =>
      RejectParts(s, id, decider, reason, now, failover);
      FailoverConfirmsSilently(s, id, failover.value, now, FailoverTx(s, id, failover.value, now).value);
    case _ =>
  }

  lemma ConfirmingChanges(s: State, s': State, id: Id)
    requires Confirming(s, s', id)
    ensures s' != s
  {
  }
}
