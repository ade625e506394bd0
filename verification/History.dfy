/** What a step can never take back: rows keep their identity, settled rows stay settled, the event log only grows. */
module History {
  import opened Wrappers
  import opened RequestFingerprint
  import opened Terms
  import opened Stock
  import opened EventKeys
  import opened Ledger
  import opened LedgerInvariant
  import opened LedgerReplay
  import opened Store
  import opened Ownership
  import opened StoreInvariant
  import opened Runs

  type Id = string

  // ---------- money ----------

  ghost predicate CancellationGrows(c: Cancellation, c': Cancellation) {
    c'.booking == c.booking && c'.facts == c.facts && c'.bookingAmount == c.bookingAmount && c'.currency == c.currency
    && (c.state != PendingFinancial ==> c'.state != PendingFinancial && c'.charge == c.charge && c'.entitlement == c.entitlement)
  }

  ghost predicate RefundGrows(f: Refund, f': Refund) {
    && f'.cancellation == f.cancellation && f'.amount == f.amount && f'.version >= f.version
    && (f.status == RefundStatus.Confirmed ==> f' == f)
  }

  /** The fingerprint a cancellation is filed with is that of the request it records. */
  predicate FactsTrue(c: Cancellation) {
    && c.facts.requestFingerprint == RequestHash(c.booking, c.facts.key.GetOr("operational"), c.facts.category, c.facts.reason)
    && Trim(c.facts.reason) == c.facts.reason
  }

  ghost predicate LedgerGrows(l: Ledger, l': Ledger) {
    && (forall c :: c in l'.cancellations ==> c in l.cancellations || FactsTrue(l'.cancellations[c]))
    && (forall c :: c in l.cancellations ==> c in l'.cancellations && CancellationGrows(l.cancellations[c], l'.cancellations[c]))
    && (forall b :: b in l.cancellationOf ==> b in l'.cancellationOf && l'.cancellationOf[b] == l.cancellationOf[b])
    && (forall r :: r in l.refunds ==> r in l'.refunds && RefundGrows(l.refunds[r], l'.refunds[r]))
    && (forall key :: key in l.events ==> key in l'.events && l'.events[key] == l.events[key])
  }

  lemma RecordedRowsGrow(l: Ledger, l': Ledger, cid: Id, c: Cancellation, rid: Id)
    requires cid !in l.cancellations && c.booking !in l.cancellationOf && FactsTrue(c)
    requires c.state.RefundPending? ==> rid !in l.refunds
    requires SameRows(RecordedRows(l, cid, c, rid), l')
    requires forall key :: key in l.events ==> key in l'.events && l'.events[key] == l.events[key]
    ensures LedgerGrows(l, l')
  {
    hide FactsTrue;
  }

  lemma RecordedEventsGrow(l: Ledger, vendor: Id, cid: Id, c: Cancellation, rid: Id)
    requires BookingCancelledKey(c.booking) !in l.events && (c.state.RefundPending? ==> RefundCreatedKey(rid) !in l.events)
    ensures var events := RecordedEvents(l, vendor, cid, c, rid); forall key :: key in l.events ==> key in events && events[key] == l.events[key]
  {
    hide CancelledEvent, CreatedEvent;
  }

  lemma RecordGrows(l: Ledger, vendor: Id, cid: Id, c: Cancellation, rid: Id)
    requires LedgerValid(l) && FactsTrue(c) && Record(l, vendor, cid, c, rid).Commit?
    ensures LedgerGrows(l, Record(l, vendor, cid, c, rid).value.0)
  {
    hide Record, LedgerValid, RecordedRows, RecordedEvents, FactsTrue, LedgerGrows;
    RecordShape(l, vendor, cid, c, rid);
    RecordedEventsGrow(l, vendor, cid, c, rid);
    RecordedRowsGrow(l, Record(l, vendor, cid, c, rid).value.0, cid, c, rid);
  }

  lemma ResolvedRowsGrow(l: Ledger, l': Ledger, cid: Id, c1: Cancellation, rid: Id, user: Id)
    requires cid in l.cancellations && CancellationGrows(l.cancellations[cid], c1)
    requires c1.entitlement != 0 ==> rid !in l.refunds
    requires SameRows(ResolvedRows(l, cid, c1, rid, user), l')
    requires forall key :: key in l.events ==> key in l'.events && l'.events[key] == l.events[key]
    ensures LedgerGrows(l, l')
  {
    hide FactsTrue;
  }

  lemma ResolvedEventsGrow(l: Ledger, vendor: Id, cid: Id, c1: Cancellation, rid: Id, user: Id)
    requires c1.resolution.Some? && ResolvedKey(cid) !in l.events && (c1.entitlement != 0 ==> RefundCreatedKey(rid) !in l.events)
    ensures var events := ResolvedEvents(l, vendor, cid, c1, rid, user); forall key :: key in l.events ==> key in events && events[key] == l.events[key]
  {
    hide ResolvedEventOf, CreatedEvent;
  }

  lemma ResolveGrows(l: Ledger, vendor: Id, cid: Id, charge: int, refund: int, reason: string, rid: Id, user: Id)
    requires LedgerValid(l) && Resolve(l, vendor, cid, charge, refund, reason, rid, user).Commit?
    ensures LedgerGrows(l, Resolve(l, vendor, cid, charge, refund, reason, rid, user).value.0)
  {
    hide Resolve, LedgerValid, ResolvedRows, ResolvedEvents, LedgerGrows;
    ResolveChecks(l, vendor, cid, charge, refund, reason, rid, user);
    ResolveShape(l, vendor, cid, charge, refund, reason, rid, user);
    var c1 := ResolvedRow(l.cancellations[cid], charge, refund, reason);
    ResolvedEventsGrow(l, vendor, cid, c1, rid, user);
    ResolvedRowsGrow(l, Resolve(l, vendor, cid, charge, refund, reason, rid, user).value.0, cid, c1, rid, user);
  }

  lemma MovedRowsGrow(l: Ledger, l': Ledger, vendor: Id, rid: Id, action: RefundAction, user: Id)
    requires rid in l.refunds && l.refunds[rid].cancellation in l.cancellations && Moves(l.refunds[rid], action)
    requires l.cancellations[l.refunds[rid].cancellation].state != PendingFinancial
    requires SettledKey(rid, l.refunds[rid], action) !in l.events
    requires var f := l.refunds[rid];
             l' == MovedRows(l, rid, SettledRow(f, action)).(events := SettledEvents(l, vendor, rid, f, action, user))
    ensures LedgerGrows(l, l')
  {
    hide SettledEvent, FactsTrue;
  }

  lemma RefundedIsSettled(l: Ledger, rid: Id)
    requires LedgerValid(l) && rid in l.refunds
    ensures l.refunds[rid].cancellation in l.cancellations && l.cancellations[l.refunds[rid].cancellation].state != PendingFinancial
  {
    assert l.refunds[rid].cancellation in l.refundOf;
    assert Lockstep(l, l.refunds[rid].cancellation);
  }

  lemma TransitionGrows(l: Ledger, vendor: Id, rid: Id, action: RefundAction, user: Id)
    requires LedgerValid(l) && Transition(l, vendor, rid, action, user).Commit?
    ensures LedgerGrows(l, Transition(l, vendor, rid, action, user).value.0)
  {
    SettledKeyWasFresh(l, vendor, rid, action, user);
    hide Transition, LedgerValid, MovedRows, SettledEvents, SettledRow, LedgerGrows, SettledKey;
    TransitionShape(l, vendor, rid, action, user);
    RefundedIsSettled(l, rid);
    SameLedgerGrows(l);
    if Moves(l.refunds[rid], action) {
      MovedRowsGrow(l, Transition(l, vendor, rid, action, user).value.0, vendor, rid, action, user);
    }
  }

  lemma SettledKeyWasFresh(l: Ledger, vendor: Id, rid: Id, action: RefundAction, user: Id)
    requires LedgerValid(l) && Transition(l, vendor, rid, action, user).Commit?
    ensures rid in l.refunds && SettledKey(rid, l.refunds[rid], action) !in l.events
  {
    SettledKeyIsFresh(l, rid, action);
  }

  lemma PostGrows(l: Ledger, key: EventKey, e: FinancialEvent)
    requires Post(l, key, e).Commit?
    ensures LedgerGrows(l, Post(l, key, e).value)
  {
  }

  // ---------- capacity ----------

  ghost predicate HoldGrows(h: Hold, h': Hold) {
    && h'.(status := h.status) == h
    && (h.status != Active ==> h' == h)
  }

  ghost predicate AllocationGrows(a: Allocation, a': Allocation) {
    && a'.(status := a.status) == a
    && (a.status == AllocationReleased ==> a' == a)
  }

  ghost predicate StockGrows(k: Stock, k': Stock) {
    && (forall h :: h in k.holds ==> h in k'.holds && HoldGrows(k.holds[h], k'.holds[h]))
    && (forall a :: a in k.allocations ==> a in k'.allocations && AllocationGrows(k.allocations[a], k'.allocations[a]))
  }

  lemma StockGrowsOn(k: Stock, k': Stock, k'': Stock)
    requires StockGrows(k, k') && StockGrows(k', k'')
    ensures StockGrows(k, k'')
  {
  }

  lemma LeaveGrows(k: Stock, h: Id, to: HoldStatus)
    requires LeaveHold(k, h, to).Commit?
    ensures StockGrows(k, LeaveHold(k, h, to).value)
  {
  }

  lemma ReleaseGrows(k: Stock, a: Id)
    requires ReleaseAllocation(k, a).Commit?
    ensures StockGrows(k, ReleaseAllocation(k, a).value)
  {
  }

  lemma PlaceGrows(k: Stock, id: Id, session: Id, booking: Id, quantity: int, expiresAt: int, reference: Reference, now: int, site: Site)
    requires PlaceHold(k, id, session, booking, quantity, expiresAt, reference, now, site).Commit?
    ensures StockGrows(k, PlaceHold(k, id, session, booking, quantity, expiresAt, reference, now, site).value.0)
  {
  }

  lemma ConvertGrows(k: Stock, h: Id, id: Id, now: int, site: Site)
    requires ConvertHold(k, h, id, now, site).Commit?
    ensures StockGrows(k, ConvertHold(k, h, id, now, site).value)
  {
  }

  lemma AllocateGrows(k: Stock, id: Id, session: Id, booking: Id, quantity: int, site: Site)
    requires AllocateDirectly(k, id, session, booking, quantity, site).Commit?
    ensures StockGrows(k, AllocateDirectly(k, id, session, booking, quantity, site).value)
  {
  }

  lemma GiveBackGrows(k: Stock, b: Id, status: BookingStatus)
    requires GiveBack(k, b, status).Commit?
    ensures StockGrows(k, GiveBack(k, b, status).value.0)
  {
    if status == BookingStatus.Confirmed {
      var a :| a in ConfirmedAllocations(k, b) && ReleaseAllocation(k, a).Commit? && GiveBack(k, b, status).value.0 == ReleaseAllocation(k, a).value;
      ReleaseGrows(k, a);
    } else {
      var h :| h in ActiveHolds(k, b) && LeaveHold(k, h, Released).Commit? && GiveBack(k, b, status).value.0 == LeaveHold(k, h, Released).value;
      LeaveGrows(k, h, Released);
    }
  }

  lemma FailoverGrows(k: Stock, id: Id, current: Id, f: Failover, now: int)
    requires FailoverStock(k, id, current, f, now).Commit?
    ensures StockGrows(k, FailoverStock(k, id, current, f, now).value.0)
  {
    FailoverParts(k, id, current, f, now);
    hide StockGrows, FailoverStock, PlaceHold, LeaveHold, ConvertHold;
    var (k1, h) := PlacedIn(k, id, f, now).value;
    var k2 := LeaveHold(k1, current, Released).value;
    PlaceGrows(k, f.hold, f.session, id, f.quantity, FailoverDue(f, now).GetOr(now + 60000), FailoverReference(id, f.plan), f.clock, f.site);
    LeaveGrows(k1, current, Released);
    StockGrowsOn(k, k1, k2);
    if f.mode == Instant {
      ConvertGrows(k2, h, f.allocation, f.clock, f.site);
      StockGrowsOn(k, k2, ConvertHold(k2, h, f.allocation, f.clock, f.site).value);
    }
  }

  // ---------- bookings ----------

  predicate Final(s: BookingStatus) {
    s == BookingStatus.Cancelled || s == VendorRejected || s == ManualRejected || s == BookingStatus.ConfirmationExpired
    || s == BookingStatus.Completed
  }

  /** A booking changes only by going up in version, never loses its identity, and a final one never changes. */
  ghost predicate BookingGrows(b: Booking, b': Booking) {
    && b'.recordType == b.recordType && b'.agent == b.agent
    && (b' == b || (b'.version > b.version && !Final(b.status)))
  }

  ghost predicate BookingsGrow(bs: map<Id, Booking>, bs': map<Id, Booking>) {
    forall b :: b in bs ==> b in bs' && BookingGrows(bs[b], bs'[b])
  }

  ghost predicate Grows(s: State, s': State) {
    && BookingsGrow(s.bookings, s'.bookings) && StockGrows(s.stock, s'.stock) && LedgerGrows(s.ledger, s'.ledger)
    && s.outbox <= s'.outbox
  }

  lemma GrowsOn(s: State, s': State, s'': State)
    requires Grows(s, s') && Grows(s', s'')
    ensures Grows(s, s'')
  {
    hide StockGrows, LedgerGrows;
    StockGrowsOn(s.stock, s'.stock, s''.stock);
    LedgerGrowsOn(s.ledger, s'.ledger, s''.ledger);
  }

  lemma LedgerGrowsOn(l: Ledger, l': Ledger, l'': Ledger)
    requires LedgerGrows(l, l') && LedgerGrows(l', l'')
    ensures LedgerGrows(l, l'')
  {
    hide RequestHash, Trim;
    forall c | c in l'.cancellations && c !in l.cancellations
      ensures c in l''.cancellations && FactsTrue(l''.cancellations[c])
    {
      assert CancellationGrows(l'.cancellations[c], l''.cancellations[c]);
    }
  }

  lemma CloseGrows(s: State, id: Id, c: Cancellation, cid: Id, rid: Id, s': State)
    requires LedgerValid(s.ledger) && id in s.bookings && Cancellable(s.bookings[id].status) && Close(s, id, c, cid, rid) == Commit(s')
    requires FactsTrue(c)
    ensures Grows(s, s')
  {
    hide FactsTrue, LedgerValid, Close, Record, GiveBack, StockGrows, LedgerGrows;
    CloseParts(s, id, c, cid, rid);
    GiveBackGrows(s.stock, id, s.bookings[id].status);
    RecordGrows(s.ledger, s.bookings[id].vendor, cid, c, rid);
  }

  lemma TrimTwice(s: string)
    ensures Trim(Trim(s)) == Trim(s)
  {
    TrimIsTrimmed(s);
    TrimKeepsTrimmed(Trim(s));
  }

  lemma AgentFacts(b: Booking, c: Calculation, r: AgentRequest, d: Draw)
    requires c.Eligible?
    ensures FactsTrue(AgentCancellation(b, c, r, d.now))
  {
    hide HashOf, Trim;
    TrimTwice(r.reason);
  }

  lemma OperationalFacts(b: Booking, r: OperationalRequest, d: Draw)
    ensures FactsTrue(OperationalCancellation(b, r, d))
  {
    hide HashOf, Trim;
    TrimTwice(r.reason);
  }

  lemma SameGrows(s: State)
    ensures Grows(s, s)
  {
  }

  lemma AgentGrows(s: State, r: AgentRequest, d: Draw, s': State, cid: Id)
    requires StateValid(s) && AgentTx(s, r, d) == Commit((s', cid))
    ensures Grows(s, s')
  {
    hide StockValid, Owned, Linked, LedgerValid, AgentTx, Close, Grows, CalculationFor, AgentCancellation, FactsTrue;
    AgentTxParts(s, r, d);
    SameGrows(s);
    if r.booking !in s.ledger.cancellationOf {
      var b := s.bookings[r.booking];
      AgentFacts(b, CalculationFor(r.booking, b, d.now, d.today), r, d);
      CloseGrows(s, r.booking, AgentCancellation(b, CalculationFor(r.booking, b, d.now, d.today), r, d.now), d.cancellation, d.refund, Close(s, r.booking, AgentCancellation(b, CalculationFor(r.booking, b, d.now, d.today), r, d.now), d.cancellation, d.refund).value);
    }
  }

  lemma OperationalGrows(s: State, r: OperationalRequest, d: Draw, s': State, cid: Id)
    requires StateValid(s) && OperationalTx(s, r, d) == Commit((s', cid))
    ensures Grows(s, s')
  {
    hide StockValid, Owned, Linked, LedgerValid, OperationalTx, Close, Grows, OperationalCancellation, FactsTrue;
    OperationalTxParts(s, r, d);
    SameGrows(s);
    if r.booking !in s.ledger.cancellationOf {
      OperationalFacts(s.bookings[r.booking], r, d);
      CloseGrows(s, r.booking, OperationalCancellation(s.bookings[r.booking], r, d), d.cancellation, d.refund, Close(s, r.booking, OperationalCancellation(s.bookings[r.booking], r, d), d.cancellation, d.refund).value);
    }
  }

  lemma EntryGrows(s: State, entry: Entry)
    requires entry.Commit? && LedgerGrows(s.ledger, entry.value.0)
    ensures WithEntry(s, entry).Commit? && Grows(s, WithEntry(s, entry).value)
  {
    hide LedgerGrows;
  }

  lemma ResolvingGrows(s: State, r: ResolutionRequest, rid: Id, s': State)
    requires StateValid(s) && ResolveTx(s, r, rid) == Commit(s')
    ensures Grows(s, s')
  {
    hide StockValid, Owned, Linked, LedgerValid, Resolve, LedgerGrows, VendorOf, Grows, Mirrors, CountsTrue, Text.ParseMoney, Trim;
    var vendor := VendorOf(s, s.ledger.cancellations[r.cancellation].booking);
    var charge, refund := Text.ParseMoney(r.charge).value, Text.ParseMoney(r.refund).value;
    ResolveGrows(s.ledger, vendor, r.cancellation, charge, refund, Trim(r.reason), rid, r.user.sub);
    EntryGrows(s, Resolve(s.ledger, vendor, r.cancellation, charge, refund, Trim(r.reason), rid, r.user.sub));
  }

  lemma RefundingGrows(s: State, user: User, rid: Id, a: RefundAction, s': State)
    requires StateValid(s) && RefundTx(s, user, rid, a) == Commit(s')
    ensures Grows(s, s')
  {
    hide StockValid, Owned, Linked, LedgerValid, Transition, LedgerGrows, VendorOf, Grows, RefundActionFor, Mirrors, CountsTrue;
    var vendor := if rid in s.ledger.refunds then VendorOf(s, s.ledger.refunds[rid].booking) else "";
    var action := RefundActionFor(a).value;
    TransitionGrows(s.ledger, vendor, rid, action, user.sub);
    EntryGrows(s, Transition(s.ledger, vendor, rid, action, user.sub));
  }

  lemma ServingGrows(s: State, id: Id, vendor: Id, news: BookingNews, s': State)
    requires StateValid(s) && ServeTx(s, id, vendor, news) == Commit(s')
    ensures Grows(s, s')
  {
    hide StateValid;
  }

  lemma CapacityGrows(s: State, session: Id, total: int, blocked: int, s': State)
    requires CapacityTx(s, session, total, blocked) == Commit(s')
    ensures Grows(s, s')
  {
  }

  lemma CreatingGrows(s: State, n: NewBooking, s': State)
    requires CreateTx(s, n) == Commit(s')
    ensures Grows(s, s')
  {
    hide StockGrows, LedgerGrows;
    if n.mode == Instant {
      CreateInstantParts(s, n);
      AllocateGrows(s.stock, n.allocation, n.session, n.id, n.quantity, n.site);
      PostGrows(s.ledger, BookingConfirmedKey(n.id), ConfirmedEvent(BookingOf(n), n.id));
      hide CreateTx, AllocateDirectly, Post;
    } else {
      hide PlaceHold;
      SameLedgerGrows(s.ledger);
      PlaceGrows(s.stock, n.hold, n.session, n.id, n.quantity, BookingOf(n).dueAt.value, BookingReference(n.id), n.clock, n.site);
    }
  }

  lemma SameLedgerGrows(l: Ledger)
    ensures LedgerGrows(l, l)
  {
  }

  lemma ExpiringGrows(s: State, id: Id, s': State)
    requires id in s.bookings && IsPending(s.bookings[id].status) && ExpireLocked(s, id) == Commit(s')
    ensures Grows(s, s')
  {
    hide LedgerGrows;
    SameLedgerGrows(s.ledger);
    var found := FindActive(s.stock, id);
    if found.Some? { LeaveGrows(s.stock, found.value, HoldStatus.Expired); }
  }

  lemma ConfirmingGrows(s: State, id: Id, decider: Decider, now: int, clock: int, allocation: Id, site: Site, s': State)
    requires ConfirmTx(s, id, decider, now, clock, allocation, site) == Commit(s')
    ensures Grows(s, s')
  {
    hide LedgerGrows, StockGrows, ConfirmTx, ConvertHold, Post, ExpireLocked;
    ConfirmParts(s, id, decider, now, clock, allocation, site);
    if Overdue(s.bookings[id], now) {
      ExpiringGrows(s, id, ExpireLocked(s, id).value);
    } else {
      ConvertGrows(s.stock, FindActive(s.stock, id).value, allocation, clock, site);
      PostGrows(s.ledger, BookingConfirmedKey(id), ConfirmedEvent(Moved(s.bookings[id], BookingStatus.Confirmed), id));
    }
  }

  lemma RejectingGrows(s: State, id: Id, decider: Decider, reason: string, now: int, failover: Option<Failover>, s': State)
    requires RejectTx(s, id, decider, reason, now, failover) == Commit(s')
    ensures Grows(s, s')
  {
    hide LedgerGrows, StockGrows, RejectTx, LeaveHold, FailoverStock, ExpireLocked;
    RejectParts(s, id, decider, reason, now, failover);
    SameLedgerGrows(s.ledger);
    if Overdue(s.bookings[id], now) {
      ExpiringGrows(s, id, ExpireLocked(s, id).value);
    } else if decider.ByVendor? && failover.Some? {
      FailoverGrows(s.stock, id, FindActive(s.stock, id).value, failover.value, now);
    } else {
      LeaveGrows(s.stock, FindActive(s.stock, id).value, Released);
    }
  }

  lemma StepGrows(s: State, step: Step)
    requires StateValid(s)
    ensures Grows(s, Next(s, step))
  {
    hide StateValid, AgentTx, OperationalTx, CreateTx, ConfirmTx, RejectTx, ResolveTx, RefundTx, ServeTx, ExpireLocked, CapacityTx, Grows;
    SameGrows(s);
    if StepTx(s, step).Commit? {
      match step
      case AgentCancels(r, d) => AgentGrows(s, r, d, AgentTx(s, r, d).value.0, AgentTx(s, r, d).value.1);
      case OperationCancels(r, d) => OperationalGrows(s, r, d, OperationalTx(s, r, d).value.0, OperationalTx(s, r, d).value.1);
      case FinanceResolves(r, rid) => ResolvingGrows(s, r, rid, ResolveTx(s, r, rid).value);
      case RefundMoves(user, rid, action) => RefundingGrows(s, user, rid, action, RefundTx(s, user, rid, action).value);
      case Creates(n) => CreatingGrows(s, n, CreateTx(s, n).value);
      case Confirms(id, decider, now, clock, allocation, site) => ConfirmingGrows(s, id, decider, now, clock, allocation, site, ConfirmTx(s, id, decider, now, clock, allocation, site).value);
      case Rejects(id, decider, reason, now, failover) => RejectingGrows(s, id, decider, reason, now, failover, RejectTx(s, id, decider, reason, now, failover).value);
      case Expires(id, now) => if Swept(s, id) && Due(s.bookings[id], now) { ExpiringGrows(s, id, ExpireLocked(s, id).value); }
      case Serves(id, vendor, news) => ServingGrows(s, id, vendor, news, ServeTx(s, id, vendor, news).value);
      case SetsCapacity(session, total, blocked) => CapacityGrows(s, session, total, blocked, CapacityTx(s, session, total, blocked).value);
    }
  }

  /** Nothing of the past is lost on any run: a hold leaves ACTIVE at most once, an allocation leaves CONFIRMED at most once,
      a settled split and a final booking never change, and no event is dropped or overwritten. */
  lemma {:induction false} RunGrows(s: State, steps: seq<Step>)
    requires StateValid(s)
    ensures Grows(s, Run(s, steps))
    decreases |steps|
  {
    hide StateValid, Next, Grows;
    if steps == [] {
      SameGrows(s);
    } else {
      var before := Run(s, steps[..|steps| - 1]);
      RunGrows(s, steps[..|steps| - 1]);
      RunKeeps(s, steps[..|steps| - 1]);
      StepGrows(before, steps[|steps| - 1]);
      GrowsOn(s, before, Run(s, steps));
    }
  }
}
