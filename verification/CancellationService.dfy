/** The cancellation service as it runs: tables updated row by row inside a transaction that is rolled back on any error. */
module CancellationService {
  import opened Wrappers
  import opened Text
  import opened RequestFingerprint
  import opened Terms
  import opened Stock
  import opened EventKeys
  import opened Ledger
  import opened Store
  import opened Races

  type Id = string

  lemma OnlyElement<T>(xs: set<T>, x: T, y: T)
    requires |xs| == 1 && x in xs && y in xs
    ensures x == y
  {
    assert |xs - {x}| == 0;
    assert y in xs - {x} || y == x;
  }

  class Service {
    var bookings: map<Id, Booking>
    var counters: map<Id, Counters>
    var holds: map<Id, Hold>
    var allocations: map<Id, Allocation>
    var cancellations: map<Id, Cancellation>
    var cancellationOf: map<Id, Id>
    var refunds: map<Id, Refund>
    var refundOf: map<Id, Id>
    var events: map<EventKey, FinancialEvent>
    var outbox: seq<Message>

    function Capacity(): Stock
      reads this
    {
      Stock(counters, holds, allocations)
    }

    function Money(): Ledger
      reads this
    {
      Ledger(cancellations, cancellationOf, refunds, refundOf, events)
    }

    /** Everything the database holds. */
    function Snapshot(): State
      reads this
    {
      State(bookings, Capacity(), Money(), outbox)
    }

    constructor (s: State)
      ensures Snapshot() == s
    {
      bookings := s.bookings;
      counters, holds, allocations := s.stock.counters, s.stock.holds, s.stock.allocations;
      cancellations, cancellationOf := s.ledger.cancellations, s.ledger.cancellationOf;
      refunds, refundOf, events := s.ledger.refunds, s.ledger.refundOf, s.ledger.events;
      outbox := s.outbox;
    }

    /** The database takes every write of a failed transaction back. */
    method Rollback(s: State)
      modifies this
      ensures Snapshot() == s
    {
      bookings := s.bookings;
      counters, holds, allocations := s.stock.counters, s.stock.holds, s.stock.allocations;
      cancellations, cancellationOf := s.ledger.cancellations, s.ledger.cancellationOf;
      refunds, refundOf, events := s.ledger.refunds, s.ledger.refundOf, s.ledger.events;
      outbox := s.outbox;
    }

    // ---------- capacity ----------

    method FreeAllocation(a: Id) returns (failed: Option<Error>)
      modifies `counters, `allocations
      ensures failed.Some? ==> ReleaseAllocation(old(Capacity()), a) == Abort(failed.value)
      ensures failed.None? ==> ReleaseAllocation(old(Capacity()), a) == Commit(Capacity())
    {
      if a !in allocations || allocations[a].session !in counters { return Some(NotFound); }
      var current := allocations[a];
      if current.status == AllocationReleased { return None; }
      allocations := allocations[a := current.(status := AllocationReleased)];
      counters := counters[current.session := AddConfirmed(counters[current.session], -current.quantity)];
      return None;
    }

    method FreeHold(h: Id, to: HoldStatus) returns (failed: Option<Error>)
      modifies `counters, `holds
      ensures failed.Some? ==> LeaveHold(old(Capacity()), h, to) == Abort(failed.value)
      ensures failed.None? ==> LeaveHold(old(Capacity()), h, to) == Commit(Capacity())
    {
      if h !in holds || holds[h].session !in counters { return Some(NotFound); }
      var hold := holds[h];
      if hold.status != Active { return None; }
      holds := holds[h := hold.(status := to)];
      counters := counters[hold.session := AddHeld(counters[hold.session], -hold.quantity)];
      return None;
    }

    /** One allocation of a confirmed booking, or one hold of a pending one, is given back. */
    method GiveBackCapacity(id: Id, status: BookingStatus) returns (failed: Option<Error>)
      modifies `counters, `holds, `allocations, `outbox
      ensures failed.Some? ==> GiveBack(old(Capacity()), id, status) == Abort(failed.value)
      ensures failed.None? ==>
                && GiveBack(old(Capacity()), id, status).Commit?
                && Capacity() == GiveBack(old(Capacity()), id, status).value.0
                && outbox == old(outbox) + [GiveBack(old(Capacity()), id, status).value.1]
    {
      ghost var k := Capacity();
      if status == BookingStatus.Confirmed {
        var found := ConfirmedAllocations(Capacity(), id);
        if found == {} { return Some(AllocationMissing); }
        if |found| > 1 { return Some(AllocationAmbiguous); }
        var a :| a in found;
        forall x | x in found ensures x == a { OnlyElement(found, x, a); }
        failed := FreeAllocation(a);
        if failed.None? { outbox := outbox + [StockMessage(AllocationFreed, a)]; }
      } else {
        var found := ActiveHolds(Capacity(), id);
        if found == {} { return Some(HoldMissing); }
        if |found| > 1 { return Some(HoldAmbiguous); }
        var h :| h in found;
        forall x | x in found ensures x == h { OnlyElement(found, x, h); }
        failed := FreeHold(h, Released);
        if failed.None? { outbox := outbox + [StockMessage(HoldReleased, h)]; }
      }
    }

    // ---------- rows and events ----------

    method CreateCancellation(cid: Id, c: Cancellation) returns (failed: Option<Error>)
      modifies `cancellations, `cancellationOf
      ensures failed.Some? ==> FileCancellation(old(Money()), cid, c) == Abort(failed.value)
      ensures failed.None? ==> FileCancellation(old(Money()), cid, c) == Commit(Money())
    {
      if cid in cancellations || c.booking in cancellationOf { return Some(UniqueViolation); }
      if c.bookingAmount < 0 || c.charge < 0 || c.entitlement < 0 { return Some(CheckViolation); }
      cancellations := cancellations[cid := c];
      cancellationOf := cancellationOf[c.booking := cid];
      return None;
    }

    /** Upsert with an empty update. */
    method AddFinancialEvent(key: EventKey, e: FinancialEvent) returns (failed: Option<Error>)
      modifies `events
      ensures failed.Some? ==> Post(old(Money()), key, e) == Abort(failed.value)
      ensures failed.None? ==> Post(old(Money()), key, e) == Commit(Money())
    {
      if e.vendor == "" { return Some(VendorTenantMissing); }
      if key !in events {
        events := events[key := e];
      }
      return None;
    }

    method CreateRefund(vendor: Id, rid: Id, cid: Id, c: Cancellation, amount: int, user: Id) returns (failed: Option<Error>)
      modifies `refunds, `refundOf, `events, `outbox
      ensures failed.Some? ==> OpenRefund(old(Money()), vendor, rid, cid, c, amount, user) == Abort(failed.value)
      ensures failed.None? ==>
                && OpenRefund(old(Money()), vendor, rid, cid, c, amount, user).Commit?
                && Money() == OpenRefund(old(Money()), vendor, rid, cid, c, amount, user).value.0
                && outbox == old(outbox) + OpenRefund(old(Money()), vendor, rid, cid, c, amount, user).value.1
    {
      if amount <= 0 { return Some(RefundAmountNotPositive); }
      if rid in refunds || cid in refundOf { return Some(UniqueViolation); }
      refunds := refunds[rid := Refund(c.booking, cid, amount, c.currency, RefundStatus.Pending, None, None, 1, user)];
      refundOf := refundOf[cid := rid];
      failed := AddFinancialEvent(RefundCreatedKey(rid), CreatedEvent(vendor, cid, rid, c, amount));
      if failed.None? { outbox := outbox + [RefundCreated(rid, c.booking, cid, amount)]; }
    }

    /** The writes every cancellation makes once it is allowed. */
    method CloseBooking(id: Id, c: Cancellation, cid: Id, rid: Id) returns (failed: Option<Error>)
      requires id in bookings
      modifies this
      ensures failed.Some? ==> Close(old(Snapshot()), id, c, cid, rid) == Abort(failed.value)
      ensures failed.None? ==> Close(old(Snapshot()), id, c, cid, rid) == Commit(Snapshot())
    {
      hide GiveBack, OpenRefund, FileCancellation, Post, CancelledEvent;
      var b := bookings[id];
      failed := GiveBackCapacity(id, b.status);
      if failed.Some? { return; }
      ghost var sent := outbox;
      assert sent + [] == sent;
      failed := CreateCancellation(cid, c);
      if failed.Some? { return; }
      bookings := bookings[id := Moved(b, BookingStatus.Cancelled)];
      failed := AddFinancialEvent(BookingCancelledKey(c.booking), CancelledEvent(b.vendor, cid, c));
      if failed.Some? { return; }
      if c.state.RefundPending? {
        failed := CreateRefund(b.vendor, rid, cid, c, c.entitlement, c.facts.byUser);
        if failed.Some? { return; }
      }
      outbox := outbox + [BookingCancelled(id, c.facts.initiator, c.state)];
    }

    // ---------- cancelling ----------

    method AgentTransaction(r: AgentRequest, d: Draw) returns (t: Tx<Id>)
      modifies this
      ensures t.Abort? ==> AgentTx(old(Snapshot()), r, d) == Abort(t.error) && Snapshot() == old(Snapshot())
      ensures t.Commit? ==> AgentTx(old(Snapshot()), r, d) == Commit((Snapshot(), t.value))
    {
      hide Close;
      if r.booking !in bookings || Some(bookings[r.booking].agent) != r.user.tenant { return Abort(NotFound); }
      var b := bookings[r.booking];
      if r.booking in cancellationOf { return Commit(cancellationOf[r.booking]); }
      if b.recordType != Canonical { return Abort(LegacyOnly); }
      if !Cancellable(b.status) { return Abort(NotCancellable); }
      var c := CalculationFor(r.booking, b, d.now, d.today);
      if c.Ineligible? { return Abort(c.reason); }
      if r.expected != c.fingerprint { return Abort(TermsChanged); }
      var before := Snapshot();
      var failed := CloseBooking(r.booking, AgentCancellation(b, c, r, d.now), d.cancellation, d.refund);
      if failed.Some? {
        Rollback(before);
        return Abort(failed.value);
      }
      return Commit(d.cancellation);
    }

    /** The read of an agent's call, taken without a lock. */
    method AgentDuplicateRead(r: AgentRequest) returns (found: Option<Tx<Id>>)
      ensures found == AgentPreRead(Snapshot(), r)
    {
      hide AgentHash, Trim;
      if r.booking !in cancellationOf || r.booking !in bookings || Some(bookings[r.booking].agent) != r.user.tenant { return None; }
      var cid := cancellationOf[r.booking];
      if cid !in cancellations || cancellations[cid].facts.key != Some(Trim(r.key)) { return None; }
      if cancellations[cid].facts.requestFingerprint != AgentHash(r) { return Some(Abort(IdempotencyKeyReused)); }
      return Some(Commit(cid));
    }

    /** The call after its read: the transaction, and the second read that answers a unique violation. */
    method AgentCancelAfterRead(read: Option<Tx<Id>>, r: AgentRequest, d: Draw) returns (answer: Tx<Id>)
      requires AgentRefusal(r).None?
      modifies this
      ensures forall past :: AgentPreRead(past, r) == read ==> (Snapshot(), answer) == AgentCall(past, old(Snapshot()), r, d)
    {
      hide AgentTx, AgentRefusal;
      if read.Some? { return read.value; }
      answer := AgentTransaction(r, d);
      if answer == Abort(UniqueViolation) {
        var duplicate := AgentDuplicateRead(r);
        if duplicate.Some? { return duplicate.value; }
        if r.booking !in bookings || Some(bookings[r.booking].agent) != r.user.tenant { return Abort(NotFound); }
      }
    }

    method AgentCancel(r: AgentRequest, d: Draw) returns (answer: Tx<Id>)
      modifies this
      ensures (Snapshot(), answer) == AgentCall(old(Snapshot()), old(Snapshot()), r, d)
    {
      var refusal := AgentRefusal(r);
      if refusal.Some? { return Abort(refusal.value); }
      var read := AgentDuplicateRead(r);
      answer := AgentCancelAfterRead(read, r, d);
    }

    method OperationalTransaction(r: OperationalRequest, d: Draw) returns (t: Tx<Id>)
      modifies this
      ensures t.Abort? ==> OperationalTx(old(Snapshot()), r, d) == Abort(t.error) && Snapshot() == old(Snapshot())
      ensures t.Commit? ==> OperationalTx(old(Snapshot()), r, d) == Commit((Snapshot(), t.value))
    {
      hide Close;
      if r.booking !in bookings || !MayTouch(r, bookings[r.booking]) { return Abort(NotFound); }
      var b := bookings[r.booking];
      if b.recordType != Canonical { return Abort(LegacyOnly); }
      if r.booking in cancellationOf { return Commit(cancellationOf[r.booking]); }
      if !Cancellable(b.status) { return Abort(NotCancellable); }
      var before := Snapshot();
      var failed := CloseBooking(r.booking, OperationalCancellation(b, r, d), d.cancellation, d.refund);
      if failed.Some? {
        Rollback(before);
        return Abort(failed.value);
      }
      return Commit(d.cancellation);
    }

    method OperationalCancel(r: OperationalRequest, d: Draw) returns (answer: Tx<Id>)
      modifies this
      ensures (Snapshot(), answer) == OperationalCall(old(Snapshot()), old(Snapshot()), r, d)
    {
      hide OperationalTx;
      var refusal := OperationalRefusal(r);
      if refusal.Some? { return Abort(refusal.value); }
      if r.booking in cancellationOf && r.booking in bookings && MayTouch(r, bookings[r.booking]) {
        return Commit(cancellationOf[r.booking]);
      }
      answer := OperationalTransaction(r, d);
    }

    // ---------- money ----------

    method ResolveFinancial(r: ResolutionRequest, rid: Id) returns (failed: Option<Error>)
      modifies this
      ensures failed.Some? ==> ResolveTx(old(Snapshot()), r, rid) == Abort(failed.value) && Snapshot() == old(Snapshot())
      ensures failed.None? ==> ResolveTx(old(Snapshot()), r, rid) == Commit(Snapshot())
    {
      hide Resolve, Trim, ParseMoney;
      var reason := Trim(r.reason);
      if reason == "" { return Some(ReasonRequired); }
      var charge, refund := ParseMoney(r.charge), ParseMoney(r.refund);
      if charge.None? || refund.None? { return Some(MoneyMalformed); }
      if r.cancellation !in cancellations { return Some(NotFound); }
      var vendor := VendorOf(Snapshot(), cancellations[r.cancellation].booking);
      failed := ResolveLocked(r.cancellation, vendor, charge.value, refund.value, reason, rid, r.user.sub);
    }

    /** The checks made under the cancellation's row lock. */
    method ResolveLocked(cid: Id, vendor: Id, charge: int, refund: int, reason: string, rid: Id, user: Id) returns (failed: Option<Error>)
      requires cid in cancellations
      modifies this
      ensures failed.Some? ==>
                Resolve(old(Money()), vendor, cid, charge, refund, reason, rid, user) == Abort(failed.value) && Snapshot() == old(Snapshot())
      ensures failed.None? ==> WithEntry(old(Snapshot()), Resolve(old(Money()), vendor, cid, charge, refund, reason, rid, user)) == Commit(Snapshot())
    {
      hide OpenRefund, Post;
      var c := cancellations[cid];
      if c.state != PendingFinancial { return Some(FinancialStateNotPending); }
      if cid in refundOf { return Some(FinancialStateAlreadyResolved); }
      if charge < 0 || refund < 0 { return Some(AmountNegative); }
      if charge > c.bookingAmount { return Some(ChargeExceedsAmount); }
      if refund > c.bookingAmount { return Some(RefundExceedsAmount); }
      if charge + refund != c.bookingAmount { return Some(TotalMismatch); }
      var before := Snapshot();
      failed := WriteResolution(cid, c, vendor, charge, refund, reason, rid, user);
      if failed.Some? {
        Rollback(before);
      }
    }

    /** The writes of a resolution once its amounts are accepted. */
    method WriteResolution(cid: Id, c: Cancellation, vendor: Id, charge: int, refund: int, reason: string, rid: Id, user: Id)
      returns (failed: Option<Error>)
      requires cid in cancellations && cancellations[cid] == c && c.state == PendingFinancial && cid !in refundOf
      requires charge >= 0 && refund >= 0 && charge + refund == c.bookingAmount
      modifies this
      ensures failed.Some? ==> Resolve(old(Money()), vendor, cid, charge, refund, reason, rid, user) == Abort(failed.value)
      ensures failed.None? ==> WithEntry(old(Snapshot()), Resolve(old(Money()), vendor, cid, charge, refund, reason, rid, user)) == Commit(Snapshot())
    {
      hide OpenRefund;
      ghost var sent := outbox;
      var state := if refund == 0 then NoRefund else RefundPending;
      var c1 := c.(charge := charge, entitlement := refund, state := state, resolution := Some(Resolution(charge, refund, reason)));
      cancellations := cancellations[cid := c1];
      failed := AddFinancialEvent(ResolvedKey(cid), ResolvedEventOf(vendor, cid, c1, user));
      if failed.Some? { return; }
      ghost var last := FinancialResolved(cid, c.booking, charge, refund, state);
      if refund != 0 {
        ghost var l := Money();
        failed := CreateRefund(vendor, rid, cid, c1, refund, user);
        if failed.Some? { return; }
        ghost var news := OpenRefund(l, vendor, rid, cid, c1, refund, user).value.1;
        assert sent + news + [last] == sent + (news + [last]);
      } else {
        assert sent + [last] == sent + ([] + [last]);
      }
      outbox := outbox + [FinancialResolved(cid, c.booking, charge, refund, state)];
    }

    method RefundTransition(user: User, rid: Id, a: RefundAction) returns (failed: Option<Error>)
      modifies this
      ensures failed.Some? ==> RefundTx(old(Snapshot()), user, rid, a) == Abort(failed.value) && Snapshot() == old(Snapshot())
      ensures failed.None? ==> RefundTx(old(Snapshot()), user, rid, a) == Commit(Snapshot())
    {
      var checked := RefundActionFor(a);
      if checked.Abort? { return Some(checked.error); }
      var action := checked.value;
      if rid !in refunds { return Some(NotFound); }
      var f := refunds[rid];
      var vendor := VendorOf(Snapshot(), f.booking);
      assert outbox + [] == outbox;
      if action.ConfirmWith? && f.status == RefundStatus.Confirmed {
        if f.reference == Some(action.reference) { return None; }
        return Some(RefundConfirmedOtherReference);
      }
      if action.FailWith? && f.status == RefundStatus.Failed { return None; }
      if action.Retry? && f.status != RefundStatus.Failed { return Some(RefundRetryRequiresFailed); }
      if !action.Retry? && f.status != RefundStatus.Pending { return Some(RefundNotPending); }
      var before := Snapshot();
      if action.Retry? {
        failed := RetryPayout(rid, f);
      } else {
        failed := SettlePayout(vendor, rid, f, action, user.sub);
      }
      if failed.Some? {
        Rollback(before);
      }
    }

    /** A failed refund goes back to pending, and so does its cancellation, if it was in the failed state. */
    method RetryPayout(rid: Id, f: Refund) returns (failed: Option<Error>)
      modifies this
      ensures failed.Some? ==> RetryRefund(old(Money()), rid, f) == Abort(failed.value)
      ensures failed.None? ==> WithEntry(old(Snapshot()), RetryRefund(old(Money()), rid, f)) == Commit(Snapshot())
    {
      refunds := refunds[rid := f.(status := RefundStatus.Pending, failureReason := None, version := f.version + 1)];
      if f.cancellation !in cancellations || cancellations[f.cancellation].state != FinancialState.RefundFailed {
        return Some(RefundRetryStateMismatch);
      }
      cancellations := cancellations[f.cancellation := cancellations[f.cancellation].(state := RefundPending)];
      outbox := outbox + [RefundRetried(rid, f.booking, f.cancellation, f.amount)];
      return None;
    }

    method SettlePayout(vendor: Id, rid: Id, f: Refund, action: RefundAction, user: Id) returns (failed: Option<Error>)
      requires !action.Retry?
      modifies this
      ensures failed.Some? ==> SettleRefund(old(Money()), vendor, rid, f, action, user) == Abort(failed.value)
      ensures failed.None? ==> WithEntry(old(Snapshot()), SettleRefund(old(Money()), vendor, rid, f, action, user)) == Commit(Snapshot())
    {
      var confirmed := action.ConfirmWith?;
      refunds := refunds[rid := if confirmed then f.(status := RefundStatus.Confirmed, reference := Some(action.reference), version := f.version + 1)
                                else f.(status := RefundStatus.Failed, failureReason := Some(action.reason), version := f.version + 1)];
      if f.cancellation !in cancellations { return Some(NotFound); }
      cancellations := cancellations[f.cancellation := cancellations[f.cancellation].(
                                       state := if confirmed then Refunded else FinancialState.RefundFailed)];
      failed := AddFinancialEvent(if confirmed then RefundConfirmedKey(rid, f.version + 1) else RefundFailedKey(rid, f.version + 1),
                                  SettledEvent(vendor, rid, f, action, user));
      if failed.None? {
        outbox := outbox + [if confirmed then RefundConfirmed(rid, f.booking, f.cancellation, f.amount, action.reference)
                            else Message.RefundFailed(rid, f.booking, f.cancellation, f.amount, action.reason)];
      }
    }
  }
}
