/** What every write to the ledger keeps: refund and cancellation in lockstep, and an event log that loses nothing. */
module LedgerInvariant {
  import opened Wrappers
  import opened EventKeys
  import opened Ledger

  ghost predicate Indexed(l: Ledger) {
    && (forall b :: b in l.cancellationOf ==> l.cancellationOf[b] in l.cancellations && l.cancellations[l.cancellationOf[b]].booking == b)
    && (forall c :: c in l.cancellations ==> l.cancellations[c].booking in l.cancellationOf && l.cancellationOf[l.cancellations[c].booking] == c)
    && (forall c :: c in l.refundOf ==> c in l.cancellations && l.refundOf[c] in l.refunds && l.refunds[l.refundOf[c]].cancellation == c)
    && (forall r :: r in l.refunds ==> l.refunds[r].cancellation in l.refundOf && l.refundOf[l.refunds[r].cancellation] == r
                                       && l.refunds[r].booking == l.cancellations[l.refunds[r].cancellation].booking)
  }

  /** The state a refund's status stands for. */
  function StateFor(s: RefundStatus): FinancialState {
    match s
    case Pending => RefundPending
    case Confirmed => Refunded
    case Failed => FinancialState.RefundFailed
  }

  /** Lockstep: with a refund, the state is the one its status stands for and the money adds up; without one, the
      cancellation is either waiting for finance or keeps the whole amount. */
  ghost predicate Lockstep(l: Ledger, cid: Id)
    requires cid in l.cancellations
  {
    var c := l.cancellations[cid];
    && (cid in l.refundOf && l.refundOf[cid] in l.refunds ==>
          var f := l.refunds[l.refundOf[cid]];
          c.state == StateFor(f.status) && f.amount == c.entitlement > 0 && c.charge + c.entitlement == c.bookingAmount && f.currency == c.currency)
    && (cid !in l.refundOf ==>
          || (c.state == PendingFinancial && c.charge == c.entitlement == 0)
          || (c.state == NoRefund && c.entitlement == 0 && c.charge == c.bookingAmount))
    && c.charge >= 0 && c.entitlement >= 0 && c.bookingAmount >= 0
    && (c.resolution.Some? ==> c.state != PendingFinancial)
  }

  /** A refund is pending at odd versions and settled at even ones; only a confirmed one has a reference, only a failed one a reason. */
  ghost predicate VersionTold(f: Refund) {
    && f.version >= 1 && (f.status == RefundStatus.Pending <==> f.version % 2 == 1)
    && (f.status == RefundStatus.Confirmed <==> f.reference.Some?)
    && (f.status == RefundStatus.Failed <==> f.failureReason.Some?)
  }

  /** Exactly the keys that should have been written. */
  ghost predicate KeyDue(l: Ledger, key: EventKey) {
    match key
    case BookingConfirmedKey(_) => true
    case BookingCancelledKey(b) => b in l.cancellationOf
    case ResolvedKey(c) => c in l.cancellations && l.cancellations[c].resolution.Some?
    case RefundCreatedKey(r) => r in l.refunds
    case RefundConfirmedKey(r, v) => r in l.refunds && l.refunds[r].status == RefundStatus.Confirmed && v == l.refunds[r].version
    case RefundFailedKey(r, v) =>
      && r in l.refunds && v % 2 == 0 && 2 <= v <= l.refunds[r].version
      && !(l.refunds[r].status == RefundStatus.Confirmed && v == l.refunds[r].version)
  }

  function KindOf(key: EventKey): EventKind {
    match key
    case BookingConfirmedKey(_) => BookingConfirmedEvent
    case BookingCancelledKey(_) => BookingCancelledEvent
    case ResolvedKey(_) => ResolvedEvent
    case RefundCreatedKey(_) => RefundCreatedEvent
    case RefundConfirmedKey(_, _) => RefundConfirmedEvent
    case RefundFailedKey(_, _) => RefundFailedEvent
  }

  ghost predicate RefundKey(key: EventKey) {
    key.RefundCreatedKey? || key.RefundConfirmedKey? || key.RefundFailedKey?
  }

  function StatusOf(l: Ledger, key: EventKey): EventStatus {
    match key
    case RefundCreatedKey(_) => Awaiting
    case RefundFailedKey(_, _) => Unsuccessful
    case BookingCancelledKey(b) =>
      if b in l.cancellationOf && l.cancellationOf[b] in l.cancellations && !l.cancellations[l.cancellationOf[b]].facts.initiator.Agent?
      then Awaiting else Posted
    case _ => Posted
  }

  /** A refund's event carries the refund's booking, cancellation, currency and amount, and a confirmation its reference. */
  ghost predicate RefundEventTrue(l: Ledger, key: EventKey, e: FinancialEvent)
    requires RefundKey(key)
  {
    && key.refund in l.refunds
    && var f := l.refunds[key.refund];
       && e.refund == Some(key.refund) && e.cancellation == Some(f.cancellation) && e.booking == f.booking
       && e.amount == Some(f.amount) && e.currency == f.currency
       && (key.RefundConfirmedKey? ==> e.note.reference == f.reference)
       && (key.RefundFailedKey? && f.status == RefundStatus.Failed && key.version == f.version ==> e.note.reason == f.failureReason)
  }

  /** A cancellation's event carries what was charged when it was filed: nothing yet if finance has decided since, and no amount at all
      unless the agent cancelled. */
  ghost predicate CancelledEventTrue(l: Ledger, key: EventKey, e: FinancialEvent)
    requires key.BookingCancelledKey?
  {
    && key.booking in l.cancellationOf && l.cancellationOf[key.booking] in l.cancellations
    && var c := l.cancellations[l.cancellationOf[key.booking]];
       && e.booking == key.booking && e.cancellation == Some(l.cancellationOf[key.booking]) && e.currency == c.currency
       && e.amount == (if c.facts.initiator.Agent? then Some(if c.resolution.Some? then 0 else c.charge) else None)
       && e.note.actor == Some(c.facts.byUser) && e.note.reason == Some(c.facts.reason)
  }

  ghost predicate ResolvedEventTrue(l: Ledger, key: EventKey, e: FinancialEvent)
    requires key.ResolvedKey?
  {
    && key.cancellation in l.cancellations
    && var c := l.cancellations[key.cancellation];
       && e.booking == c.booking && e.cancellation == Some(key.cancellation) && e.currency == c.currency && e.amount == Some(c.charge)
       && c.resolution.Some? && e.note.reason == Some(c.resolution.value.reason) && c.resolution.value.charge == c.charge
  }

  /** Each event tells the money of the row its key names. */
  ghost predicate EventTrue(l: Ledger, key: EventKey, e: FinancialEvent) {
    && e.kind == KindOf(key) && e.status == StatusOf(l, key)
    && (RefundKey(key) ==> RefundEventTrue(l, key, e))
    && (key.ResolvedKey? ==> ResolvedEventTrue(l, key, e))
    && (key.BookingCancelledKey? ==> CancelledEventTrue(l, key, e))
    && (key.BookingConfirmedKey? ==> e.booking == key.booking)
  }

  ghost predicate KeysExact(l: Ledger) {
    forall key: EventKey :: !key.BookingConfirmedKey? ==> (key in l.events <==> KeyDue(l, key))
  }

  ghost predicate EventsTrue(l: Ledger) {
    forall key :: key in l.events ==> EventTrue(l, key, l.events[key])
  }

  ghost predicate EventsExact(l: Ledger) {
    KeysExact(l) && EventsTrue(l)
  }

  ghost predicate AllLockstep(l: Ledger) {
    forall c :: c in l.cancellations ==> Lockstep(l, c)
  }

  ghost predicate VersionsTold(l: Ledger) {
    forall r :: r in l.refunds ==> VersionTold(l.refunds[r])
  }

  ghost predicate LedgerValid(l: Ledger) {
    Indexed(l) && AllLockstep(l) && VersionsTold(l) && EventsExact(l)
  }

  // ---------- what was true of an event stays true ----------

  ghost predicate RowCarries(c: Cancellation, c': Cancellation) {
    && c'.booking == c.booking && c'.facts == c.facts && c'.currency == c.currency
    && (if c.resolution.None? && c'.resolution.Some? then c.charge == 0 else c'.charge == c.charge && c'.resolution == c.resolution)
  }

  ghost predicate RefundCarries(f: Refund, f': Refund) {
    && f'.booking == f.booking && f'.cancellation == f.cancellation && f'.amount == f.amount && f'.currency == f.currency
    && (f.status == RefundStatus.Confirmed ==> f' == f)
    && (f' == f || f'.version > f.version)
  }

  /** The rows events tell of keep what the events tell of them. */
  ghost predicate Carries(l: Ledger, l': Ledger) {
    && (forall c :: c in l.cancellations ==> c in l'.cancellations && RowCarries(l.cancellations[c], l'.cancellations[c]))
    && (forall b :: b in l.cancellationOf ==> b in l'.cancellationOf && l'.cancellationOf[b] == l.cancellationOf[b])
    && (forall r :: r in l.refunds ==> r in l'.refunds && RefundCarries(l.refunds[r], l'.refunds[r]))
  }

  lemma EventCarries(l: Ledger, l': Ledger, key: EventKey, e: FinancialEvent)
    requires Carries(l, l') && EventTrue(l, key, e)
    requires key.RefundConfirmedKey? ==> key.refund in l.refunds && l.refunds[key.refund].status == RefundStatus.Confirmed
    requires key.RefundFailedKey? ==> key.refund in l.refunds && key.version <= l.refunds[key.refund].version
    ensures EventTrue(l', key, e)
  {
    if key.BookingCancelledKey? {
      assert RowCarries(l.cancellations[l.cancellationOf[key.booking]], l'.cancellations[l.cancellationOf[key.booking]]);
    }
    if key.ResolvedKey? {
      assert RowCarries(l.cancellations[key.cancellation], l'.cancellations[key.cancellation]);
    }
    if RefundKey(key) {
      assert RefundCarries(l.refunds[key.refund], l'.refunds[key.refund]);
    }
  }

  lemma OldEventsCarry(l: Ledger, l': Ledger)
    requires Carries(l, l') && EventsExact(l)
    ensures forall key :: key in l.events ==> EventTrue(l', key, l.events[key])
  {
    forall key | key in l.events
      ensures EventTrue(l', key, l.events[key])
    {
      assert EventTrue(l, key, l.events[key]);
      assert key.RefundConfirmedKey? || key.RefundFailedKey? ==> KeyDue(l, key);
      EventCarries(l, l', key, l.events[key]);
    }
  }

  // Each new event is true of the rows written with it.

  lemma CancelledEventIsTrue(l: Ledger, vendor: Id, cid: Id, c: Cancellation)
    requires cid in l.cancellations && l.cancellations[cid] == c && c.booking in l.cancellationOf && l.cancellationOf[c.booking] == cid
    requires c.resolution.None?
    ensures EventTrue(l, BookingCancelledKey(c.booking), CancelledEvent(vendor, cid, c))
  {
  }

  lemma CreatedEventIsTrue(l: Ledger, vendor: Id, cid: Id, rid: Id, c: Cancellation, amount: int)
    requires rid in l.refunds
    requires var f := l.refunds[rid]; f.booking == c.booking && f.cancellation == cid && f.amount == amount && f.currency == c.currency
    ensures EventTrue(l, RefundCreatedKey(rid), CreatedEvent(vendor, cid, rid, c, amount))
  {
  }

  lemma ResolvedEventIsTrue(l: Ledger, vendor: Id, cid: Id, c: Cancellation, user: Id)
    requires cid in l.cancellations && l.cancellations[cid] == c && c.resolution.Some? && c.resolution.value.charge == c.charge
    ensures EventTrue(l, ResolvedKey(cid), ResolvedEventOf(vendor, cid, c, user))
  {
  }

  // ---------- every write keeps it ----------

  /** A cancellation as the service files it: settled by the policy, or waiting for finance. */
  ghost predicate FreshCancellation(c: Cancellation) {
    && c.resolution.None?
    && (|| (c.state == PendingFinancial && c.charge == c.entitlement == 0)
        || (c.charge + c.entitlement == c.bookingAmount && c.state == (if c.entitlement == 0 then NoRefund else RefundPending)))
  }

  // The rows each write leaves, without the events.

  function WithRefund(l: Ledger, cid: Id, c: Cancellation, rid: Id, amount: int, user: Id): Ledger {
    l.(refunds := l.refunds[rid := Refund(c.booking, cid, amount, c.currency, RefundStatus.Pending, None, None, 1, user)],
       refundOf := l.refundOf[cid := rid])
  }

  function WithCancellation(l: Ledger, cid: Id, c: Cancellation): Ledger {
    l.(cancellations := l.cancellations[cid := c], cancellationOf := l.cancellationOf[c.booking := cid])
  }

  function WithState(l: Ledger, cid: Id, c: Cancellation): Ledger {
    l.(cancellations := l.cancellations[cid := c])
  }

  lemma FilingKeepsIndex(l: Ledger, cid: Id, c: Cancellation)
    requires Indexed(l) && cid !in l.cancellations && c.booking !in l.cancellationOf
    ensures Indexed(WithCancellation(l, cid, c)) && cid !in l.refundOf
  {
  }

  lemma RefundKeepsIndex(l: Ledger, cid: Id, c: Cancellation, rid: Id, amount: int, user: Id)
    requires Indexed(l) && cid in l.cancellations && l.cancellations[cid].booking == c.booking
    requires cid !in l.refundOf && rid !in l.refunds
    ensures Indexed(WithRefund(l, cid, c, rid, amount, user))
  {
  }

  lemma StateKeepsIndex(l: Ledger, cid: Id, c: Cancellation)
    requires Indexed(l) && cid in l.cancellations && c.booking == l.cancellations[cid].booking
    ensures Indexed(WithState(l, cid, c))
  {
  }

  lemma MoveKeepsIndex(l: Ledger, rid: Id, f: Refund)
    requires Indexed(l) && rid in l.refunds
    requires f.cancellation == l.refunds[rid].cancellation && f.booking == l.refunds[rid].booking
    ensures Indexed(l.(refunds := l.refunds[rid := f]))
  {
  }

  ghost predicate SameRows(l: Ledger, l': Ledger) {
    l' == l.(events := l'.events)
  }

  lemma SameRowsKeep(l: Ledger, l': Ledger)
    requires SameRows(l, l')
    ensures Indexed(l) ==> Indexed(l')
    ensures AllLockstep(l) ==> AllLockstep(l')
    ensures VersionsTold(l) ==> VersionsTold(l')
  {
    if AllLockstep(l) {
      forall c | c in l'.cancellations
        ensures Lockstep(l', c)
      {
        assert Lockstep(l, c);
      }
    }
  }

  // ---------- filing a cancellation ----------

  function RecordedRows(l: Ledger, cid: Id, c: Cancellation, rid: Id): Ledger {
    var l1 := WithCancellation(l, cid, c);
    if c.state.RefundPending? then WithRefund(l1, cid, c, rid, c.entitlement, c.facts.byUser) else l1
  }

  function RecordedEvents(l: Ledger, vendor: Id, cid: Id, c: Cancellation, rid: Id): map<EventKey, FinancialEvent> {
    var events := l.events[BookingCancelledKey(c.booking) := CancelledEvent(vendor, cid, c)];
    if c.state.RefundPending? then events[RefundCreatedKey(rid) := CreatedEvent(vendor, cid, rid, c, c.entitlement)] else events
  }

  lemma RecordShape(l: Ledger, vendor: Id, cid: Id, c: Cancellation, rid: Id)
    requires LedgerValid(l) && Record(l, vendor, cid, c, rid).Commit?
    ensures cid !in l.cancellations && c.booking !in l.cancellationOf && c.charge >= 0 && c.entitlement >= 0 && c.bookingAmount >= 0
    ensures c.state.RefundPending? ==> rid !in l.refunds && cid !in l.refundOf && c.entitlement > 0
    ensures BookingCancelledKey(c.booking) !in l.events
    ensures c.state.RefundPending? ==> RefundCreatedKey(rid) !in l.events
    ensures Record(l, vendor, cid, c, rid).value.0
            == RecordedRows(l, cid, c, rid).(events := RecordedEvents(l, vendor, cid, c, rid))
  {
    assert !KeyDue(l, BookingCancelledKey(c.booking));
    assert rid !in l.refunds ==> !KeyDue(l, RefundCreatedKey(rid));
  }

  lemma RecordKeepsOthers(l: Ledger, cid: Id, c: Cancellation, rid: Id, k: Id)
    requires Indexed(l) && k in l.cancellations && Lockstep(l, k) && k != cid
    requires c.state.RefundPending? ==> rid !in l.refunds
    ensures Lockstep(RecordedRows(l, cid, c, rid), k)
  {
    assert k in l.refundOf ==> l.refundOf[k] in l.refunds;
  }

  lemma RecordStartsInLockstep(l: Ledger, cid: Id, c: Cancellation, rid: Id)
    requires FreshCancellation(c) && c.charge >= 0 && c.entitlement >= 0 && c.bookingAmount >= 0 && cid !in l.refundOf
    ensures Lockstep(RecordedRows(l, cid, c, rid), cid)
  {
  }

  lemma RecordKeepsLockstep(l: Ledger, cid: Id, c: Cancellation, rid: Id)
    requires Indexed(l) && AllLockstep(l) && VersionsTold(l)
    requires FreshCancellation(c) && c.charge >= 0 && c.entitlement >= 0 && c.bookingAmount >= 0
    requires cid !in l.cancellations && c.booking !in l.cancellationOf
    requires c.state.RefundPending? ==> rid !in l.refunds
    ensures AllLockstep(RecordedRows(l, cid, c, rid)) && VersionsTold(RecordedRows(l, cid, c, rid))
  {
    hide Lockstep, FreshCancellation;
    var l' := RecordedRows(l, cid, c, rid);
    forall k | k in l'.cancellations
      ensures Lockstep(l', k)
    {
      if k == cid {
        FilingKeepsIndex(l, cid, c);
        RecordStartsInLockstep(l, cid, c, rid);
      } else {
        RecordKeepsOthers(l, cid, c, rid, k);
      }
    }
  }

  predicate RecordWrites(key: EventKey, c: Cancellation, rid: Id) {
    key == BookingCancelledKey(c.booking) || (c.state.RefundPending? && key == RefundCreatedKey(rid))
  }

  lemma RecordedKeyDue(l: Ledger, l': Ledger, cid: Id, c: Cancellation, rid: Id, key: EventKey)
    requires cid !in l.cancellations && c.booking !in l.cancellationOf && c.resolution.None?
    requires c.state.RefundPending? ==> rid !in l.refunds
    requires SameRows(RecordedRows(l, cid, c, rid), l')
    ensures KeyDue(l', key) <==> KeyDue(l, key) || RecordWrites(key, c, rid)
  {
  }

  lemma RecordKeepsKeys(l: Ledger, l': Ledger, vendor: Id, cid: Id, c: Cancellation, rid: Id)
    requires KeysExact(l) && cid !in l.cancellations && c.booking !in l.cancellationOf && c.resolution.None?
    requires c.state.RefundPending? ==> rid !in l.refunds
    requires l' == RecordedRows(l, cid, c, rid).(events := RecordedEvents(l, vendor, cid, c, rid))
    ensures KeysExact(l')
  {
    hide KeyDue, RecordedRows, CancelledEvent, CreatedEvent;
    forall key: EventKey | !key.BookingConfirmedKey?
      ensures key in l'.events <==> KeyDue(l', key)
    {
      RecordedKeyDue(l, l', cid, c, rid, key);
    }
  }

  lemma RecordCarries(l: Ledger, l': Ledger, cid: Id, c: Cancellation, rid: Id)
    requires cid !in l.cancellations && c.booking !in l.cancellationOf && (c.state.RefundPending? ==> rid !in l.refunds)
    requires SameRows(RecordedRows(l, cid, c, rid), l')
    ensures Carries(l, l')
  {
  }

  lemma RecordKeepsTruth(l: Ledger, l': Ledger, vendor: Id, cid: Id, c: Cancellation, rid: Id)
    requires EventsExact(l) && cid !in l.cancellations && c.booking !in l.cancellationOf && c.resolution.None?
    requires c.state.RefundPending? ==> rid !in l.refunds
    requires l' == RecordedRows(l, cid, c, rid).(events := RecordedEvents(l, vendor, cid, c, rid))
    ensures EventsTrue(l')
  {
    RecordCarries(l, l', cid, c, rid);
    OldEventsCarry(l, l');
    CancelledEventIsTrue(l', vendor, cid, c);
    if c.state.RefundPending? { CreatedEventIsTrue(l', vendor, cid, rid, c, c.entitlement); }
    hide KeysExact, Carries, EventTrue, CancelledEvent, CreatedEvent;
  }

  lemma RecordKeepsLedger(l: Ledger, vendor: Id, cid: Id, c: Cancellation, rid: Id)
    requires LedgerValid(l) && FreshCancellation(c) && Record(l, vendor, cid, c, rid).Commit?
    ensures LedgerValid(Record(l, vendor, cid, c, rid).value.0)
  {
    var l' := Record(l, vendor, cid, c, rid).value.0;
    RecordShape(l, vendor, cid, c, rid);
    RecordKeepsKeys(l, l', vendor, cid, c, rid);
    RecordKeepsTruth(l, l', vendor, cid, c, rid);
    RecordKeepsLockstep(l, cid, c, rid);
    FilingKeepsIndex(l, cid, c);
    if c.state.RefundPending? {
      RefundKeepsIndex(WithCancellation(l, cid, c), cid, c, rid, c.entitlement, c.facts.byUser);
    }
    SameRowsKeep(RecordedRows(l, cid, c, rid), l');
  }

  // ---------- resolution by finance ----------

  function ResolvedRow(c: Cancellation, charge: int, refund: int, reason: string): Cancellation {
    c.(charge := charge, entitlement := refund, state := if refund == 0 then NoRefund else RefundPending,
       resolution := Some(Resolution(charge, refund, reason)))
  }

  function ResolvedRows(l: Ledger, cid: Id, c1: Cancellation, rid: Id, user: Id): Ledger {
    var l1 := WithState(l, cid, c1);
    if c1.entitlement == 0 then l1 else WithRefund(l1, cid, c1, rid, c1.entitlement, user)
  }

  function ResolvedEvents(l: Ledger, vendor: Id, cid: Id, c1: Cancellation, rid: Id, user: Id): map<EventKey, FinancialEvent>
    requires c1.resolution.Some?
  {
    var events := l.events[ResolvedKey(cid) := ResolvedEventOf(vendor, cid, c1, user)];
    if c1.entitlement == 0 then events else events[RefundCreatedKey(rid) := CreatedEvent(vendor, cid, rid, c1, c1.entitlement)]
  }

  lemma ResolveChecks(l: Ledger, vendor: Id, cid: Id, charge: int, refund: int, reason: string, rid: Id, user: Id)
    requires Resolve(l, vendor, cid, charge, refund, reason, rid, user).Commit?
    ensures cid in l.cancellations && l.cancellations[cid].state == PendingFinancial && cid !in l.refundOf
    ensures charge >= 0 && refund >= 0 && charge + refund == l.cancellations[cid].bookingAmount
    ensures refund != 0 ==> rid !in l.refunds
  {
  }

  lemma ResolveShape(l: Ledger, vendor: Id, cid: Id, charge: int, refund: int, reason: string, rid: Id, user: Id)
    requires LedgerValid(l) && Resolve(l, vendor, cid, charge, refund, reason, rid, user).Commit?
    ensures cid in l.cancellations && ResolvedKey(cid) !in l.events
    ensures refund != 0 ==> RefundCreatedKey(rid) !in l.events
    ensures var c1 := ResolvedRow(l.cancellations[cid], charge, refund, reason);
            Resolve(l, vendor, cid, charge, refund, reason, rid, user).value.0
            == ResolvedRows(l, cid, c1, rid, user).(events := ResolvedEvents(l, vendor, cid, c1, rid, user))
  {
    ResolveChecks(l, vendor, cid, charge, refund, reason, rid, user);
    assert Lockstep(l, cid);
    assert !KeyDue(l, ResolvedKey(cid));
    assert rid !in l.refunds ==> !KeyDue(l, RefundCreatedKey(rid));
  }

  lemma ResolveKeepsLockstep(l: Ledger, cid: Id, charge: int, refund: int, reason: string, rid: Id, user: Id)
    requires Indexed(l) && AllLockstep(l) && VersionsTold(l) && cid in l.cancellations && cid !in l.refundOf
    requires charge >= 0 && refund >= 0 && charge + refund == l.cancellations[cid].bookingAmount
    requires refund != 0 ==> rid !in l.refunds
    ensures var l' := ResolvedRows(l, cid, ResolvedRow(l.cancellations[cid], charge, refund, reason), rid, user);
            AllLockstep(l') && VersionsTold(l')
  {
    hide Lockstep, ResolvedRow;
    var c := ResolvedRow(l.cancellations[cid], charge, refund, reason);
    var l' := ResolvedRows(l, cid, c, rid, user);
    ResolvedRowSplits(l, cid, charge, refund, reason);
    forall k | k in l'.cancellations
      ensures Lockstep(l', k)
    {
      if k == cid { ResolvedInLockstep(l, cid, c, rid, user); } else { ResolveKeepsOthers(l, cid, c, rid, user, k); }
    }
  }

  lemma ResolvedRowSplits(l: Ledger, cid: Id, charge: int, refund: int, reason: string)
    requires cid in l.cancellations && charge >= 0 && refund >= 0 && charge + refund == l.cancellations[cid].bookingAmount
    ensures SplitRow(ResolvedRow(l.cancellations[cid], charge, refund, reason))
    ensures ResolvedRow(l.cancellations[cid], charge, refund, reason).entitlement == refund
  {
  }

  /** A row whose money is settled: split exactly, with nothing to refund or a refund to come. */
  ghost predicate SplitRow(c: Cancellation) {
    && c.charge >= 0 && c.entitlement >= 0 && c.charge + c.entitlement == c.bookingAmount
    && c.state == if c.entitlement == 0 then NoRefund else RefundPending
  }

  lemma ResolvedInLockstep(l: Ledger, cid: Id, c: Cancellation, rid: Id, user: Id)
    requires cid in l.cancellations && cid !in l.refundOf && SplitRow(c)
    ensures cid in ResolvedRows(l, cid, c, rid, user).cancellations && Lockstep(ResolvedRows(l, cid, c, rid, user), cid)
  {
  }

  lemma ResolveKeepsOthers(l: Ledger, cid: Id, c: Cancellation, rid: Id, user: Id, k: Id)
    requires Indexed(l) && AllLockstep(l) && k in l.cancellations && k != cid && (c.entitlement != 0 ==> rid !in l.refunds)
    ensures k in ResolvedRows(l, cid, c, rid, user).cancellations && Lockstep(ResolvedRows(l, cid, c, rid, user), k)
  {
    assert Lockstep(l, k);
  }

  predicate ResolveWrites(key: EventKey, cid: Id, c1: Cancellation, rid: Id) {
    key == ResolvedKey(cid) || (c1.entitlement != 0 && key == RefundCreatedKey(rid))
  }

  lemma ResolvedKeyDue(l: Ledger, l': Ledger, cid: Id, c1: Cancellation, rid: Id, user: Id, key: EventKey)
    requires cid in l.cancellations && l.cancellations[cid].resolution.None? && c1.resolution.Some?
    requires c1.booking == l.cancellations[cid].booking && (c1.entitlement != 0 ==> rid !in l.refunds)
    requires SameRows(ResolvedRows(l, cid, c1, rid, user), l')
    ensures KeyDue(l', key) <==> KeyDue(l, key) || ResolveWrites(key, cid, c1, rid)
  {
  }

  lemma ResolveKeepsKeys(l: Ledger, l': Ledger, vendor: Id, cid: Id, c1: Cancellation, rid: Id, user: Id)
    requires KeysExact(l) && cid in l.cancellations && l.cancellations[cid].resolution.None? && c1.resolution.Some?
    requires c1.booking == l.cancellations[cid].booking
    requires c1.entitlement != 0 ==> rid !in l.refunds
    requires l' == ResolvedRows(l, cid, c1, rid, user).(events := ResolvedEvents(l, vendor, cid, c1, rid, user))
    ensures KeysExact(l')
  {
    hide KeyDue, ResolvedRows, ResolvedEventOf, CreatedEvent;
    forall key: EventKey | !key.BookingConfirmedKey?
      ensures key in l'.events <==> KeyDue(l', key)
    {
      ResolvedKeyDue(l, l', cid, c1, rid, user, key);
    }
  }

  lemma ResolveCarries(l: Ledger, l': Ledger, cid: Id, c1: Cancellation, rid: Id, user: Id)
    requires cid in l.cancellations && RowCarries(l.cancellations[cid], c1) && (c1.entitlement != 0 ==> rid !in l.refunds)
    requires SameRows(ResolvedRows(l, cid, c1, rid, user), l')
    ensures Carries(l, l')
  {
    hide RowCarries;
    SameRowCarries();
  }

  lemma SameRowCarries()
    ensures forall c :: RowCarries(c, c)
  {
  }

  lemma ResolveKeepsTruth(l: Ledger, l': Ledger, vendor: Id, cid: Id, c1: Cancellation, rid: Id, user: Id)
    requires EventsExact(l) && cid in l.cancellations && c1.resolution.Some? && RowCarries(l.cancellations[cid], c1)
    requires c1.resolution.value.charge == c1.charge && (c1.entitlement != 0 ==> rid !in l.refunds) && ResolvedKey(cid) !in l.events
    requires l' == ResolvedRows(l, cid, c1, rid, user).(events := ResolvedEvents(l, vendor, cid, c1, rid, user))
    ensures EventsTrue(l')
  {
    ResolveCarries(l, l', cid, c1, rid, user);
    OldEventsCarry(l, l');
    ResolvedEventIsTrue(l', vendor, cid, c1, user);
    if c1.entitlement != 0 { CreatedEventIsTrue(l', vendor, cid, rid, c1, c1.entitlement); }
    hide KeysExact, Carries, RowCarries, EventTrue, ResolvedEventOf, CreatedEvent;
  }

  lemma ResolveKeepsLedger(l: Ledger, vendor: Id, cid: Id, charge: int, refund: int, reason: string, rid: Id, user: Id)
    requires LedgerValid(l) && Resolve(l, vendor, cid, charge, refund, reason, rid, user).Commit?
    ensures LedgerValid(Resolve(l, vendor, cid, charge, refund, reason, rid, user).value.0)
  {
    var l' := Resolve(l, vendor, cid, charge, refund, reason, rid, user).value.0;
    ResolveChecks(l, vendor, cid, charge, refund, reason, rid, user);
    ResolveShape(l, vendor, cid, charge, refund, reason, rid, user);
    var c1 := ResolvedRow(l.cancellations[cid], charge, refund, reason);
    assert Lockstep(l, cid);
    ResolveKeepsKeys(l, l', vendor, cid, c1, rid, user);
    ResolveKeepsTruth(l, l', vendor, cid, c1, rid, user);
    ResolveKeepsLockstep(l, cid, charge, refund, reason, rid, user);
    StateKeepsIndex(l, cid, c1);
    if refund != 0 {
      RefundKeepsIndex(WithState(l, cid, c1), cid, c1, rid, refund, user);
    }
    SameRowsKeep(ResolvedRows(l, cid, c1, rid, user), l');
  }

  // ---------- refund transitions ----------

  function SettledRow(f: Refund, action: RefundAction): Refund {
    match action
    case ConfirmWith(reference) => f.(status := RefundStatus.Confirmed, reference := Some(reference), version := f.version + 1)
    case FailWith(reason) => f.(status := RefundStatus.Failed, failureReason := Some(reason), version := f.version + 1)
    case Retry => f.(status := RefundStatus.Pending, failureReason := None, version := f.version + 1)
  }

  /** A refund and its cancellation move together. */
  function MovedRows(l: Ledger, rid: Id, f: Refund): Ledger
    requires f.cancellation in l.cancellations
  {
    WithState(l.(refunds := l.refunds[rid := f]), f.cancellation, l.cancellations[f.cancellation].(state := StateFor(f.status)))
  }

  function SettledKey(rid: Id, f: Refund, action: RefundAction): EventKey {
    if action.ConfirmWith? then RefundConfirmedKey(rid, f.version + 1) else RefundFailedKey(rid, f.version + 1)
  }

  function SettledEvents(l: Ledger, vendor: Id, rid: Id, f: Refund, action: RefundAction, user: Id): map<EventKey, FinancialEvent> {
    if action.Retry? then l.events else l.events[SettledKey(rid, f, action) := SettledEvent(vendor, rid, f, action, user)]
  }

  /** The transitions that change something. */
  predicate Moves(f: Refund, action: RefundAction) {
    f.status == if action.Retry? then RefundStatus.Failed else RefundStatus.Pending
  }

  lemma TransitionRuns(l: Ledger, vendor: Id, rid: Id, action: RefundAction, user: Id)
    requires Transition(l, vendor, rid, action, user).Commit?
    ensures rid in l.refunds
    ensures var f := l.refunds[rid];
            var t := Transition(l, vendor, rid, action, user);
            if !Moves(f, action) then t == Commit((l, []))
            else if action.Retry? then t == RetryRefund(l, rid, f)
            else t == SettleRefund(l, vendor, rid, f, action, user)
  {
  }

  /** Whoever repeats a confirmation or a failure that went through, it is answered and nothing is written again. */
  lemma RepeatChangesNothing(l: Ledger, vendor: Id, rid: Id, action: RefundAction, user: Id, laterVendor: Id, laterUser: Id)
    requires !action.Retry? && Transition(l, vendor, rid, action, user).Commit?
    ensures var l' := Transition(l, vendor, rid, action, user).value.0; Transition(l', laterVendor, rid, action, laterUser) == Commit((l', []))
  {
    TransitionRuns(l, vendor, rid, action, user);
  }

  lemma RetryShape(l: Ledger, rid: Id, f: Refund)
    requires RetryRefund(l, rid, f).Commit?
    ensures f.cancellation in l.cancellations
    ensures RetryRefund(l, rid, f).value.0 == MovedRows(l, rid, SettledRow(f, Retry))
  {
  }

  lemma SettleShape(l: Ledger, vendor: Id, rid: Id, f: Refund, action: RefundAction, user: Id)
    requires !action.Retry? && SettleRefund(l, vendor, rid, f, action, user).Commit?
    requires SettledKey(rid, f, action) !in l.events
    ensures f.cancellation in l.cancellations
    ensures SettleRefund(l, vendor, rid, f, action, user).value.0
            == MovedRows(l, rid, SettledRow(f, action)).(events := SettledEvents(l, vendor, rid, f, action, user))
  {
  }

  /** The version in the key is one the log cannot hold yet. */
  lemma SettledKeyIsFresh(l: Ledger, rid: Id, action: RefundAction)
    requires KeysExact(l) && rid in l.refunds
    ensures SettledKey(rid, l.refunds[rid], action) !in l.events
  {
    assert !KeyDue(l, SettledKey(rid, l.refunds[rid], action));
  }

  lemma TransitionShape(l: Ledger, vendor: Id, rid: Id, action: RefundAction, user: Id)
    requires LedgerValid(l) && Transition(l, vendor, rid, action, user).Commit?
    ensures rid in l.refunds && l.refunds[rid].cancellation in l.cancellations
    ensures var l' := Transition(l, vendor, rid, action, user).value.0;
            var f := l.refunds[rid];
            if Moves(f, action)
            then l' == MovedRows(l, rid, SettledRow(f, action)).(events := SettledEvents(l, vendor, rid, f, action, user))
            else l' == l
  {
    TransitionRuns(l, vendor, rid, action, user);
    var f := l.refunds[rid];
    assert f.cancellation in l.refundOf;
    SettledKeyIsFresh(l, rid, action);
    if Moves(f, action) {
      if action.Retry? {
        RetryShape(l, rid, f);
      } else {
        SettleShape(l, vendor, rid, f, action, user);
      }
    }
  }

  lemma SettledRowTold(f: Refund, action: RefundAction)
    requires VersionTold(f) && Moves(f, action)
    ensures VersionTold(SettledRow(f, action))
  {
  }

  lemma MoveKeepsLockstep(l: Ledger, rid: Id, f: Refund)
    requires Indexed(l) && AllLockstep(l) && VersionsTold(l) && rid in l.refunds && VersionTold(f)
    requires f.cancellation == l.refunds[rid].cancellation && f.amount == l.refunds[rid].amount && f.currency == l.refunds[rid].currency
    ensures f.cancellation in l.cancellations
    ensures AllLockstep(MovedRows(l, rid, f)) && VersionsTold(MovedRows(l, rid, f))
  {
    var l' := MovedRows(l, rid, f);
    forall k | k in l'.cancellations
      ensures Lockstep(l', k)
    {
      assert Lockstep(l, k);
    }
  }

  lemma MoveKeepsKeys(l: Ledger, l': Ledger, vendor: Id, rid: Id, action: RefundAction, user: Id)
    requires KeysExact(l) && VersionsTold(l) && rid in l.refunds && l.refunds[rid].cancellation in l.cancellations
    requires Moves(l.refunds[rid], action)
    requires var f := l.refunds[rid];
             l' == MovedRows(l, rid, SettledRow(f, action)).(events := SettledEvents(l, vendor, rid, f, action, user))
    ensures KeysExact(l')
  {
    hide SettledEvent;
    assert VersionTold(l.refunds[rid]);
    forall key: EventKey | !key.BookingConfirmedKey?
      ensures key in l'.events <==> KeyDue(l', key)
    {
      assert key in l.events <==> KeyDue(l, key);
    }
  }

  lemma MoveCarries(l: Ledger, l': Ledger, rid: Id, action: RefundAction)
    requires rid in l.refunds && l.refunds[rid].cancellation in l.cancellations && Moves(l.refunds[rid], action)
    requires SameRows(MovedRows(l, rid, SettledRow(l.refunds[rid], action)), l')
    ensures Carries(l, l')
  {
  }

  lemma MoveKeepsTruth(l: Ledger, l': Ledger, vendor: Id, rid: Id, action: RefundAction, user: Id)
    requires EventsExact(l) && rid in l.refunds && l.refunds[rid].cancellation in l.cancellations
    requires Moves(l.refunds[rid], action)
    requires var f := l.refunds[rid];
             l' == MovedRows(l, rid, SettledRow(f, action)).(events := SettledEvents(l, vendor, rid, f, action, user))
    ensures EventsTrue(l')
  {
    MoveCarries(l, l', rid, action);
    OldEventsCarry(l, l');
    if !action.Retry? { SettledEventIsTrue(l', vendor, rid, l.refunds[rid], action, user); }
    hide KeysExact, Carries, EventTrue, SettledEvent;
  }

  lemma SettledEventIsTrue(l: Ledger, vendor: Id, rid: Id, f: Refund, action: RefundAction, user: Id)
    requires !action.Retry? && rid in l.refunds && l.refunds[rid] == SettledRow(f, action)
    ensures EventTrue(l, SettledKey(rid, f, action), SettledEvent(vendor, rid, f, action, user))
  {
  }

  lemma TransitionKeepsLedger(l: Ledger, vendor: Id, rid: Id, action: RefundAction, user: Id)
    requires LedgerValid(l) && Transition(l, vendor, rid, action, user).Commit?
    ensures LedgerValid(Transition(l, vendor, rid, action, user).value.0)
  {
    var l' := Transition(l, vendor, rid, action, user).value.0;
    TransitionShape(l, vendor, rid, action, user);
    var f := l.refunds[rid];
    if Moves(f, action) {
      var f1 := SettledRow(f, action);
      SettledRowTold(f, action);
      MoveKeepsLockstep(l, rid, f1);
      MoveKeepsIndex(l, rid, f1);
      StateKeepsIndex(l.(refunds := l.refunds[rid := f1]), f.cancellation, l.cancellations[f.cancellation].(state := StateFor(f1.status)));
      MoveKeepsKeys(l, l', vendor, rid, action, user);
      MoveKeepsTruth(l, l', vendor, rid, action, user);
      SameRowsKeep(MovedRows(l, rid, f1), l');
    }
  }
}
