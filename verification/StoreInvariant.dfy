/** What every step of every party keeps. */
module StoreInvariant {
  import opened Wrappers
  import opened Policy
  import opened Terms
  import opened Stock
  import opened EventKeys
  import opened Ledger
  import opened LedgerInvariant
  import opened LedgerReplay
  import opened Store
  import opened Ownership

  type Id = string

  ghost predicate MoneyValid(l: Ledger, outbox: seq<Message>) {
    LedgerValid(l) && Mirrors(l, outbox) && CountsTrue(l, outbox)
  }

  /** Bookings and their cancellations agree. */
  ghost predicate BookingLinked(bs: map<Id, Booking>, l: Ledger, b: Id)
    requires b in bs
  {
    bs[b].recordType == Canonical ==>
      && (b in l.cancellationOf <==> bs[b].status == BookingStatus.Cancelled)
      && (IsPending(bs[b].status) ==> BookingConfirmedKey(b) !in l.events)
      && (BookingConfirmedKey(b) in l.events ==>
            l.events[BookingConfirmedKey(b)].amount == Some(bs[b].amount) && l.events[BookingConfirmedKey(b)].currency == bs[b].currency)
      && bs[b].vendor != ""
      && bs[b].snapshot.Some? && bs[b].economics.Some? && Accepted(bs[b].snapshot.value.rules)
  }

  ghost predicate Linked(bs: map<Id, Booking>, l: Ledger) {
    && (forall b :: b in bs ==> BookingLinked(bs, l, b))
    && (forall b :: b in l.cancellationOf ==> b in bs && bs[b].recordType == Canonical)
    && (forall b :: BookingConfirmedKey(b) in l.events ==> b in bs && bs[b].recordType == Canonical)
  }

  ghost predicate StateValid(s: State) {
    StockValid(s.stock) && Owned(s.bookings, s.stock) && MoneyValid(s.ledger, s.outbox) && Linked(s.bookings, s.ledger)
  }

  /** Before any canonical booking exists: legacy bookings may be there, sessions have capacity, nothing is committed. */
  ghost predicate Initial(s: State) {
    && (forall b :: b in s.bookings ==> s.bookings[b].recordType == Legacy)
    && s.stock.holds == map[] && s.stock.allocations == map[]
    && (forall x :: x in s.stock.counters ==>
          var c := s.stock.counters[x]; c.held == 0 && c.confirmed == 0 && 0 <= c.blocked <= c.total)
    && s.ledger == Ledger(map[], map[], map[], map[], map[]) && s.outbox == []
  }

  lemma InitialIsValid(s: State)
    requires Initial(s)
    ensures StateValid(s)
  {
  }

  // ---------- messages and events that carry no refund news ----------

  ghost predicate Noise(news: seq<Message>) {
    forall i :: 0 <= i < |news| ==> news[i].StockMessage? || news[i].BookingMessage?
  }

  lemma NoiseKeepsMoney(l: Ledger, outbox: seq<Message>, news: seq<Message>)
    requires MoneyValid(l, outbox) && Noise(news)
    ensures MoneyValid(l, outbox + news)
  {
    NoiseKeepsMirror(l, outbox, news);
    QuietKeepsCounts(l, outbox, l, news);
  }

  lemma ConfirmedEventKeepsMoney(l: Ledger, outbox: seq<Message>, id: Id, e: FinancialEvent)
    requires MoneyValid(l, outbox) && e.kind == BookingConfirmedEvent && e.status == Posted && e.booking == id && Post(l, BookingConfirmedKey(id), e).Commit?
    ensures MoneyValid(Post(l, BookingConfirmedKey(id), e).value, outbox)
  {
    var l' := Post(l, BookingConfirmedKey(id), e).value;
    if l' != l {
      SameRowsKeep(l, l');
      ConfirmedEventKeepsEvents(l, l', id, e);
      forall b
        ensures Replay(outbox, b) == ViewOf(l', b)
      {
        EventsDoNotShow(l, l', b);
      }
      forall r
        ensures LoggedFailures(l', r) == LoggedFailures(l, r)
      {
        PostCounts(l.events, BookingConfirmedKey(id), e, r);
      }
    }
  }

  lemma ConfirmedEventKeepsEvents(l: Ledger, l': Ledger, id: Id, e: FinancialEvent)
    requires EventsExact(l) && e.kind == BookingConfirmedEvent && e.status == Posted && e.booking == id
    requires l' == l.(events := l.events[BookingConfirmedKey(id) := e])
    ensures EventsExact(l')
  {
    forall key: EventKey | !key.BookingConfirmedKey?
      ensures key in l'.events <==> KeyDue(l', key)
    {
      assert key in l.events <==> KeyDue(l, key);
    }
    forall key | key in l'.events
      ensures EventTrue(l', key, l'.events[key])
    {
      if key != BookingConfirmedKey(id) { assert EventTrue(l, key, l.events[key]); }
    }
  }

  // ---------- links ----------

  lemma RelinkOne(bs: map<Id, Booking>, l: Ledger, id: Id, b': Booking, l': Ledger)
    requires Linked(bs, l)
    requires l'.cancellationOf == l.cancellationOf
    requires forall b :: b != id && BookingConfirmedKey(b) in l'.events ==> SameConfirmation(l, l', b)
    requires BookingLinked(bs[id := b'], l', id)
    requires id in bs ==> bs[id].recordType == b'.recordType
    requires id in l.cancellationOf || BookingConfirmedKey(id) in l'.events ==> b'.recordType == Canonical
    ensures Linked(bs[id := b'], l')
  {
    var bs' := bs[id := b'];
    forall b | b in bs'
      ensures BookingLinked(bs', l', b)
    {
      if b != id { assert BookingLinked(bs, l, b); }
    }
  }

  // ---------- cancellation ----------

  lemma GiveBackKeeps(bs: map<Id, Booking>, k: Stock, id: Id, b': Booking)
    requires StockValid(k) && Owned(bs, k) && id in bs && Cancellable(bs[id].status)
    requires bs[id].recordType == b'.recordType == Canonical && b'.status == BookingStatus.Cancelled
    requires GiveBack(k, id, bs[id].status).Commit?
    ensures var (k', news) := GiveBack(k, id, bs[id].status).value;
            StockValid(k') && Owned(bs[id := b'], k') && SameHoldsElsewhere(k, k', id) && news.StockMessage?
  {
    hide StockValid, Owned, ReleaseAllocation, LeaveHold;
    if bs[id].status == BookingStatus.Confirmed {
      var a :| a in ConfirmedAllocations(k, id) && ReleaseAllocation(k, a).Commit?
               && GiveBack(k, id, bs[id].status).value == (ReleaseAllocation(k, a).value, StockMessage(AllocationFreed, a));
      ReleaseAllocationKeepsStock(k, a);
      FreeCloses(bs, k, id, b', a);
    } else {
      var h :| h in ActiveHolds(k, id) && LeaveHold(k, h, Released).Commit?
               && GiveBack(k, id, bs[id].status).value == (LeaveHold(k, h, Released).value, StockMessage(HoldReleased, h));
      LeaveHoldKeepsStock(k, h, Released);
      ReleaseCloses(bs, k, id, b', h, Released);
    }
  }

  lemma CloseParts(s: State, id: Id, c: Cancellation, cid: Id, rid: Id)
    requires id in s.bookings && Close(s, id, c, cid, rid).Commit?
    ensures GiveBack(s.stock, id, s.bookings[id].status).Commit? && Record(s.ledger, s.bookings[id].vendor, cid, c, rid).Commit?
    ensures var (k', freed) := GiveBack(s.stock, id, s.bookings[id].status).value;
            var (l', news) := Record(s.ledger, s.bookings[id].vendor, cid, c, rid).value;
            Close(s, id, c, cid, rid).value
            == State(s.bookings[id := Moved(s.bookings[id], BookingStatus.Cancelled)], k', l',
                     s.outbox + [freed] + news + [BookingCancelled(id, c.facts.initiator, c.state)])
  {
  }

  lemma RecordKeepsMoney(l: Ledger, outbox: seq<Message>, vendor: Id, cid: Id, c: Cancellation, rid: Id)
    requires MoneyValid(l, outbox) && FreshCancellation(c) && Record(l, vendor, cid, c, rid).Commit?
    ensures var (l', news) := Record(l, vendor, cid, c, rid).value;
            MoneyValid(l', outbox + news + [BookingCancelled(c.booking, c.facts.initiator, c.state)])
  {
    hide Record, LedgerValid, Mirrors, CountsTrue;
    var (l', news) := Record(l, vendor, cid, c, rid).value;
    var last := BookingCancelled(c.booking, c.facts.initiator, c.state);
    RecordKeepsLedger(l, vendor, cid, c, rid);
    RecordMirrors(l, outbox, vendor, cid, c, rid);
    RecordCounts(l, outbox, vendor, cid, c, rid, last);
    assert outbox + (news + [last]) == outbox + news + [last];
  }

  ghost predicate NoNewConfirmations(l: Ledger, l': Ledger) {
    forall b :: BookingConfirmedKey(b) in l'.events ==> SameConfirmation(l, l', b)
  }

  ghost predicate SameConfirmation(l: Ledger, l': Ledger, b: Id)
    requires BookingConfirmedKey(b) in l'.events
  {
    BookingConfirmedKey(b) in l.events && l'.events[BookingConfirmedKey(b)] == l.events[BookingConfirmedKey(b)]
  }

  lemma RecordTouches(l: Ledger, vendor: Id, cid: Id, c: Cancellation, rid: Id)
    requires LedgerValid(l) && Record(l, vendor, cid, c, rid).Commit?
    ensures var l' := Record(l, vendor, cid, c, rid).value.0;
            l'.cancellationOf == l.cancellationOf[c.booking := cid] && NoNewConfirmations(l, l')
  {
    RecordShape(l, vendor, cid, c, rid);
  }

  lemma CancelledLinks(bs: map<Id, Booking>, l: Ledger, l': Ledger, id: Id, cid: Id, b': Booking)
    requires Linked(bs, l) && l'.cancellationOf == l.cancellationOf[id := cid] && NoNewConfirmations(l, l')
    requires id in bs && bs[id].recordType == b'.recordType == Canonical && b'.status == BookingStatus.Cancelled
    requires b' == bs[id].(status := b'.status, version := b'.version)
    ensures Linked(bs[id := b'], l')
  {
    var bs' := bs[id := b'];
    forall b | b in bs'
      ensures BookingLinked(bs', l', b)
    {
      assert BookingLinked(bs, l, b);
    }
  }

  lemma CloseKeeps(s: State, id: Id, c: Cancellation, cid: Id, rid: Id, s': State)
    requires StateValid(s) && id in s.bookings && s.bookings[id].recordType == Canonical && Cancellable(s.bookings[id].status)
    requires c.booking == id && FreshCancellation(c) && Close(s, id, c, cid, rid) == Commit(s')
    ensures StateValid(s')
    ensures SameHoldsElsewhere(s.stock, s'.stock, id)
  {
    hide StockValid, Owned, MoneyValid, Linked, Record, GiveBack, Close;
    var b := s.bookings[id];
    var b' := Moved(b, BookingStatus.Cancelled);
    CloseParts(s, id, c, cid, rid);
    var freed := GiveBack(s.stock, id, b.status).value.1;
    GiveBackKeeps(s.bookings, s.stock, id, b');
    NoiseKeepsMoney(s.ledger, s.outbox, [freed]);
    RecordKeepsMoney(s.ledger, s.outbox + [freed], b.vendor, cid, c, rid);
    RecordTouches(s.ledger, b.vendor, cid, c, rid);
    CancelledLinks(s.bookings, s.ledger, s'.ledger, id, cid, b');
  }

  /** What an agent's calculation files is settled exactly by the policy, or left to finance. */
  lemma CalculationIsFresh(s: State, id: Id, r: AgentRequest, d: Draw)
    requires id in s.bookings && BookingLinked(s.bookings, s.ledger, id) && s.bookings[id].recordType == Canonical
    requires Cancellable(s.bookings[id].status)
    requires CalculationFor(id, s.bookings[id], d.now, d.today).Eligible?
    ensures FreshCancellation(AgentCancellation(s.bookings[id], CalculationFor(id, s.bookings[id], d.now, d.today), r, d.now))
  {
    var b := s.bookings[id];
    if b.status == BookingStatus.Confirmed {
      CalculationSplits(id, b, d.now, d.today);
    }
  }

  lemma CalculationSplits(id: Id, b: Booking, now: int, today: Day)
    requires Calculate(id, b, now, today).Eligible?
    ensures var c := Calculate(id, b, now, today);
            c.charge + c.refund == c.bookingAmount && c.state == if c.refund == 0 then NoRefund else RefundPending
  {
    var rules := b.snapshot.value.rules;
    var days := Calendar.DateDifference(b.serviceDay, today);
    var rule := Matches(rules, days)[0];
    RefundIsTheRest(b.economics.value.finalAmount, rule);
  }

  lemma RefundIsTheRest(amount: int, rule: Rule)
    ensures Charges.Charge(amount, rule) + Charges.Refund(amount, rule) == amount
  {
    RoundOfWhole(amount - Charges.Charge(amount, rule));
  }

  lemma RoundOfWhole(n: int)
    ensures Charges.Round(n as real) == n
  {
  }

  /** A first cancellation that commits passed every check. */
  lemma AgentTxParts(s: State, r: AgentRequest, d: Draw)
    requires AgentTx(s, r, d).Commit?
    ensures r.booking in s.bookings && Some(s.bookings[r.booking].agent) == r.user.tenant
    ensures r.booking in s.ledger.cancellationOf ==> AgentTx(s, r, d) == Commit((s, s.ledger.cancellationOf[r.booking]))
    ensures r.booking !in s.ledger.cancellationOf ==>
              var b := s.bookings[r.booking];
              var c := CalculationFor(r.booking, b, d.now, d.today);
              && b.recordType == Canonical && Cancellable(b.status) && c.Eligible? && r.expected == c.fingerprint
              && Close(s, r.booking, AgentCancellation(b, c, r, d.now), d.cancellation, d.refund).Commit?
              && AgentTx(s, r, d).value == (Close(s, r.booking, AgentCancellation(b, c, r, d.now), d.cancellation, d.refund).value, d.cancellation)
  {
    hide Close, CalculationFor, AgentCancellation;
  }

  lemma AgentTxKeeps(s: State, r: AgentRequest, d: Draw, s': State, cid: Id)
    requires StateValid(s) && AgentTx(s, r, d) == Commit((s', cid))
    ensures StateValid(s')
    ensures SameHoldsElsewhere(s.stock, s'.stock, r.booking)
  {
    hide StockValid, Owned, MoneyValid, BookingLinked, Close, CalculationFor, AgentTx, AgentCancellation, FreshCancellation;
    AgentTxParts(s, r, d);
    if r.booking !in s.ledger.cancellationOf {
      var b := s.bookings[r.booking];
      var c := CalculationFor(r.booking, b, d.now, d.today);
      CalculationIsFresh(s, r.booking, r, d);
      assert AgentCancellation(b, c, r, d.now).booking == r.booking by { AgentCancellationNames(b, c, r, d.now); }
      CloseKeeps(s, r.booking, AgentCancellation(b, c, r, d.now), d.cancellation, d.refund, Close(s, r.booking, AgentCancellation(b, c, r, d.now), d.cancellation, d.refund).value);
    }
  }

  lemma AgentCancellationNames(b: Booking, c: Calculation, r: AgentRequest, now: int)
    requires c.Eligible?
    ensures AgentCancellation(b, c, r, now).booking == r.booking
  {
  }

  lemma OperationalTxParts(s: State, r: OperationalRequest, d: Draw)
    requires OperationalTx(s, r, d).Commit?
    ensures r.booking in s.bookings && MayTouch(r, s.bookings[r.booking]) && s.bookings[r.booking].recordType == Canonical
    ensures r.booking in s.ledger.cancellationOf ==> OperationalTx(s, r, d) == Commit((s, s.ledger.cancellationOf[r.booking]))
    ensures r.booking !in s.ledger.cancellationOf ==>
              var c := OperationalCancellation(s.bookings[r.booking], r, d);
              && Cancellable(s.bookings[r.booking].status) && Close(s, r.booking, c, d.cancellation, d.refund).Commit?
              && c.booking == r.booking && FreshCancellation(c)
              && OperationalTx(s, r, d).value == (Close(s, r.booking, c, d.cancellation, d.refund).value, d.cancellation)
  {
    hide Close;
  }

  lemma OperationalTxKeeps(s: State, r: OperationalRequest, d: Draw, s': State, cid: Id)
    requires StateValid(s) && OperationalTx(s, r, d) == Commit((s', cid))
    ensures StateValid(s')
    ensures SameHoldsElsewhere(s.stock, s'.stock, r.booking)
  {
    hide StateValid, Close, OperationalTx, OperationalCancellation, FreshCancellation;
    OperationalTxParts(s, r, d);
    if r.booking !in s.ledger.cancellationOf {
      CloseKeeps(s, r.booking, OperationalCancellation(s.bookings[r.booking], r, d), d.cancellation, d.refund, Close(s, r.booking, OperationalCancellation(s.bookings[r.booking], r, d), d.cancellation, d.refund).value);
    }
  }

  // ---------- money ----------

  lemma LinksIgnoreMoney(bs: map<Id, Booking>, l: Ledger, l': Ledger)
    requires Linked(bs, l) && l'.cancellationOf == l.cancellationOf && NoNewConfirmations(l, l')
    ensures Linked(bs, l')
  {
    forall b | b in bs
      ensures BookingLinked(bs, l', b)
    {
      assert BookingLinked(bs, l, b);
    }
  }

  lemma ResolveKeepsMoney(bs: map<Id, Booking>, l: Ledger, outbox: seq<Message>, vendor: Id, cid: Id, charge: int, refund: int, reason: string, rid: Id, user: Id)
    requires MoneyValid(l, outbox) && Linked(bs, l) && Resolve(l, vendor, cid, charge, refund, reason, rid, user).Commit?
    ensures var (l', news) := Resolve(l, vendor, cid, charge, refund, reason, rid, user).value;
            MoneyValid(l', outbox + news) && Linked(bs, l')
  {
    hide Resolve, LedgerValid, Mirrors, CountsTrue, Linked;
    ResolveKeepsLedger(l, vendor, cid, charge, refund, reason, rid, user);
    ResolveMirrors(l, outbox, vendor, cid, charge, refund, reason, rid, user);
    ResolveCounts(l, outbox, vendor, cid, charge, refund, reason, rid, user);
    ResolveTouches(l, vendor, cid, charge, refund, reason, rid, user);
    LinksIgnoreMoney(bs, l, Resolve(l, vendor, cid, charge, refund, reason, rid, user).value.0);
  }

  lemma ResolveTouches(l: Ledger, vendor: Id, cid: Id, charge: int, refund: int, reason: string, rid: Id, user: Id)
    requires LedgerValid(l) && Resolve(l, vendor, cid, charge, refund, reason, rid, user).Commit?
    ensures var l' := Resolve(l, vendor, cid, charge, refund, reason, rid, user).value.0;
            l'.cancellationOf == l.cancellationOf && NoNewConfirmations(l, l')
  {
    ResolveShape(l, vendor, cid, charge, refund, reason, rid, user);
  }

  lemma ResolveTxKeeps(s: State, r: ResolutionRequest, rid: Id, s': State)
    requires StateValid(s) && ResolveTx(s, r, rid) == Commit(s')
    ensures StateValid(s') && s'.stock == s.stock
  {
    hide StockValid, Owned, MoneyValid, Linked, Resolve;
    ResolveKeepsMoney(s.bookings, s.ledger, s.outbox, VendorOf(s, s.ledger.cancellations[r.cancellation].booking), r.cancellation,
                      Text.ParseMoney(r.charge).value, Text.ParseMoney(r.refund).value, RequestFingerprint.Trim(r.reason), rid, r.user.sub);
  }

  lemma TransitionKeepsMoney(bs: map<Id, Booking>, l: Ledger, outbox: seq<Message>, vendor: Id, rid: Id, action: RefundAction, user: Id)
    requires MoneyValid(l, outbox) && Linked(bs, l) && Transition(l, vendor, rid, action, user).Commit?
    ensures var (l', news) := Transition(l, vendor, rid, action, user).value;
            MoneyValid(l', outbox + news) && Linked(bs, l')
  {
    hide Transition, LedgerValid, Mirrors, CountsTrue, Linked;
    TransitionKeepsLedger(l, vendor, rid, action, user);
    TransitionMirrors(l, outbox, vendor, rid, action, user);
    TransitionCounts(l, outbox, vendor, rid, action, user);
    TransitionShape(l, vendor, rid, action, user);
    LinksIgnoreMoney(bs, l, Transition(l, vendor, rid, action, user).value.0);
  }

  lemma RefundTxKeeps(s: State, user: User, rid: Id, a: RefundAction, s': State)
    requires StateValid(s) && RefundTx(s, user, rid, a) == Commit(s')
    ensures StateValid(s') && s'.stock == s.stock
  {
    hide StockValid, Owned, MoneyValid, Linked, Transition;
    TransitionKeepsMoney(s.bookings, s.ledger, s.outbox,
                         if rid in s.ledger.refunds then VendorOf(s, s.ledger.refunds[rid].booking) else "",
                         rid, RefundActionFor(a).value, user.sub);
  }

  // ---------- the rest of a booking's life ----------

  /** A confirmation event adds its own key and nothing else. */
  lemma ConfirmationTouches(l: Ledger, id: Id, e: FinancialEvent)
    requires Post(l, BookingConfirmedKey(id), e).Commit?
    ensures var l' := Post(l, BookingConfirmedKey(id), e).value;
            l'.cancellationOf == l.cancellationOf
            && (forall b :: b != id && BookingConfirmedKey(b) in l'.events ==> SameConfirmation(l, l', b))
  {
  }

  lemma InstantBookingLinks(bs: map<Id, Booking>, l: Ledger, outbox: seq<Message>, id: Id, b: Booking)
    requires MoneyValid(l, outbox) && Linked(bs, l) && id !in bs && b.status == BookingStatus.Confirmed && b.recordType == Canonical
    requires b.vendor != "" && b.snapshot.Some? && b.economics.Some? && Accepted(b.snapshot.value.rules)
    requires Post(l, BookingConfirmedKey(id), ConfirmedEvent(b, id)).Commit?
    ensures var l' := Post(l, BookingConfirmedKey(id), ConfirmedEvent(b, id)).value;
            MoneyValid(l', outbox) && Linked(bs[id := b], l')
  {
    ConfirmedEventKeepsMoney(l, outbox, id, ConfirmedEvent(b, id));
    ConfirmationTouches(l, id, ConfirmedEvent(b, id));
    RelinkOne(bs, l, id, b, Post(l, BookingConfirmedKey(id), ConfirmedEvent(b, id)).value);
  }

  lemma CreateInstantParts(s: State, n: NewBooking)
    requires n.mode == Instant && CreateTx(s, n).Commit?
    ensures n.id !in s.bookings && n.vendor != "" && Accepted(n.snapshot.rules)
    ensures AllocateDirectly(s.stock, n.allocation, n.session, n.id, n.quantity, n.site).Commit?
    ensures Post(s.ledger, BookingConfirmedKey(n.id), ConfirmedEvent(BookingOf(n), n.id)).Commit?
    ensures CreateTx(s, n).value
            == State(s.bookings[n.id := BookingOf(n)],
                     AllocateDirectly(s.stock, n.allocation, n.session, n.id, n.quantity, n.site).value,
                     Post(s.ledger, BookingConfirmedKey(n.id), ConfirmedEvent(BookingOf(n), n.id)).value,
                     s.outbox + InstantNews(n))
  {
  }

  function InstantNews(n: NewBooking): seq<Message> {
    [StockMessage(AllocationMade, n.allocation), BookingMessage(Created, n.id), BookingMessage(BookingNews.BookingConfirmed, n.id)]
  }

  lemma CreateInstantKeeps(s: State, n: NewBooking, s': State)
    requires StateValid(s) && n.mode == Instant && CreateTx(s, n) == Commit(s')
    ensures StateValid(s')
    ensures SameHoldsElsewhere(s.stock, s'.stock, n.id)
  {
    hide StockValid, Owned, MoneyValid, Linked, CreateTx, AllocateDirectly, Post;
    CreateInstantParts(s, n);
    AllocateDirectlyKeepsStock(s.stock, n.allocation, n.session, n.id, n.quantity, n.site);
    AllocationCreates(s.bookings, s.stock, n.id, BookingOf(n), n.allocation, n.session, n.quantity, n.site);
    InstantBookingLinks(s.bookings, s.ledger, s.outbox, n.id, BookingOf(n));
    NoiseKeepsMoney(s'.ledger, s.outbox, InstantNews(n));
  }

  lemma CreatePendingKeeps(s: State, n: NewBooking, s': State)
    requires StateValid(s) && n.mode != Instant && CreateTx(s, n) == Commit(s')
    ensures StateValid(s')
    ensures SameHoldsElsewhere(s.stock, s'.stock, n.id) && HasHold(s'.stock, n.id)
  {
    hide StockValid, Owned, MoneyValid, PlaceHold, HasHold;
    var b := BookingOf(n);
    PlaceHoldKeepsStock(s.stock, n.hold, n.session, n.id, n.quantity, b.dueAt.value, BookingReference(n.id), n.clock, n.site);
    HoldCreates(s.bookings, s.stock, n.id, b, n.hold, n.session, n.quantity, b.dueAt.value, n.clock, n.site);
    var h := PlaceHold(s.stock, n.hold, n.session, n.id, n.quantity, b.dueAt.value, BookingReference(n.id), n.clock, n.site).value.1;
    NoiseKeepsMoney(s.ledger, s.outbox, [StockMessage(HoldPlaced, h), BookingMessage(Created, n.id)]);
    RelinkOne(s.bookings, s.ledger, n.id, b, s.ledger);
  }

  /** Moving a booking that was never cancelled leaves the links as they were. */
  lemma MovedLinks(bs: map<Id, Booking>, l: Ledger, id: Id, status: BookingStatus)
    requires Linked(bs, l) && id in bs && bs[id].status != BookingStatus.Cancelled && status != BookingStatus.Cancelled
    requires bs[id].recordType == Canonical && !IsPending(status)
    ensures Linked(bs[id := Moved(bs[id], status)], l)
  {
    assert BookingLinked(bs, l, id);
    RelinkOne(bs, l, id, Moved(bs[id], status), l);
  }

  /** Letting a pending booking's hold go closes it, whatever the outcome is called. */
  lemma LetGoKeeps(s: State, id: Id, status: BookingStatus, h: Id, to: HoldStatus, news: seq<Message>)
    requires StateValid(s) && id in s.bookings && s.bookings[id].recordType == Canonical && IsPending(s.bookings[id].status)
    requires Closed(Moved(s.bookings[id], status)) && status != BookingStatus.Cancelled
    requires h in ActiveHolds(s.stock, id) && (to == Released || to == HoldStatus.Expired) && LeaveHold(s.stock, h, to).Commit? && Noise(news)
    ensures var k' := LeaveHold(s.stock, h, to).value;
            && SameHoldsElsewhere(s.stock, k', id)
            && StateValid(State(s.bookings[id := Moved(s.bookings[id], status)], k', s.ledger, s.outbox + news))
  {
    hide StockValid, Owned, MoneyValid, Linked, LeaveHold;
    LeaveHoldKeepsStock(s.stock, h, to);
    ReleaseCloses(s.bookings, s.stock, id, Moved(s.bookings[id], status), h, to);
    NoiseKeepsMoney(s.ledger, s.outbox, news);
    MovedLinks(s.bookings, s.ledger, id, status);
  }

  lemma ExpireWithHold(s: State, id: Id)
    requires id in s.bookings && ExpireLocked(s, id).Commit? && FindActive(s.stock, id).Some?
    ensures var h := FindActive(s.stock, id).value;
            && LeaveHold(s.stock, h, HoldStatus.Expired).Commit?
            && ExpireLocked(s, id).value
               == State(s.bookings[id := Moved(s.bookings[id], BookingStatus.ConfirmationExpired)],
                        LeaveHold(s.stock, h, HoldStatus.Expired).value, s.ledger,
                        s.outbox + [StockMessage(HoldExpired, h), BookingMessage(BookingExpired, id)])
  {
    var h := FindActive(s.stock, id).value;
    assert [StockMessage(HoldExpired, h)] + [BookingMessage(BookingExpired, id)] == [StockMessage(HoldExpired, h), BookingMessage(BookingExpired, id)];
  }

  lemma ExpireLockedKeeps(s: State, id: Id, s': State)
    requires StateValid(s) && id in s.bookings && s.bookings[id].recordType == Canonical && IsPending(s.bookings[id].status)
    requires ExpireLocked(s, id) == Commit(s')
    ensures StateValid(s') && SameHoldsElsewhere(s.stock, s'.stock, id)
  {
    hide StockValid, Owned, MoneyValid, Linked;
    FoundIsActive(s.stock, id);
    if FindActive(s.stock, id).Some? {
      var h := FindActive(s.stock, id).value;
      ExpireWithHold(s, id);
      LetGoKeeps(s, id, BookingStatus.ConfirmationExpired, h, HoldStatus.Expired,
                 [StockMessage(HoldExpired, h), BookingMessage(BookingExpired, id)]);
    } else {
      ClosesWithoutHold(s.bookings, s.stock, id, Moved(s.bookings[id], BookingStatus.ConfirmationExpired));
      MovedLinks(s.bookings, s.ledger, id, BookingStatus.ConfirmationExpired);
      NoiseKeepsMoney(s.ledger, s.outbox, [BookingMessage(BookingExpired, id)]);
      assert s.outbox + [] == s.outbox;
    }
  }

  /** The parts of a confirmation that really converts a hold. */
  lemma ConfirmParts(s: State, id: Id, decider: Decider, now: int, clock: int, allocation: Id, site: Site)
    requires ConfirmTx(s, id, decider, now, clock, allocation, site).Commit?
    ensures id in s.bookings && s.bookings[id].recordType == Canonical && IsPending(s.bookings[id].status)
    ensures Overdue(s.bookings[id], now) ==> ConfirmTx(s, id, decider, now, clock, allocation, site) == ExpireLocked(s, id)
    ensures !Overdue(s.bookings[id], now) ==>
              var h := FindActive(s.stock, id);
              var b1 := Moved(s.bookings[id], BookingStatus.Confirmed);
              && h.Some? && ConvertHold(s.stock, h.value, allocation, clock, site).Commit?
              && Post(s.ledger, BookingConfirmedKey(id), ConfirmedEvent(b1, id)).Commit?
              && ConfirmTx(s, id, decider, now, clock, allocation, site).value
                 == State(s.bookings[id := b1], ConvertHold(s.stock, h.value, allocation, clock, site).value,
                          Post(s.ledger, BookingConfirmedKey(id), ConfirmedEvent(b1, id)).value,
                          s.outbox + [StockMessage(HoldConverted, h.value), BookingMessage(BookingNews.BookingConfirmed, id)])
  {
  }

  lemma ConfirmationLinks(bs: map<Id, Booking>, l: Ledger, outbox: seq<Message>, id: Id)
    requires MoneyValid(l, outbox) && Linked(bs, l) && id in bs && bs[id].recordType == Canonical && IsPending(bs[id].status)
    requires Post(l, BookingConfirmedKey(id), ConfirmedEvent(Moved(bs[id], BookingStatus.Confirmed), id)).Commit?
    ensures var b1 := Moved(bs[id], BookingStatus.Confirmed);
            var l' := Post(l, BookingConfirmedKey(id), ConfirmedEvent(b1, id)).value;
            MoneyValid(l', outbox) && Linked(bs[id := b1], l')
  {
    var b1 := Moved(bs[id], BookingStatus.Confirmed);
    assert BookingLinked(bs, l, id);
    ConfirmedEventKeepsMoney(l, outbox, id, ConfirmedEvent(b1, id));
    ConfirmationTouches(l, id, ConfirmedEvent(b1, id));
    RelinkOne(bs, l, id, b1, Post(l, BookingConfirmedKey(id), ConfirmedEvent(b1, id)).value);
  }

  lemma ConfirmTxKeeps(s: State, id: Id, decider: Decider, now: int, clock: int, allocation: Id, site: Site, s': State)
    requires StateValid(s) && ConfirmTx(s, id, decider, now, clock, allocation, site) == Commit(s')
    ensures StateValid(s')
    ensures SameHoldsElsewhere(s.stock, s'.stock, id)
  {
    hide StockValid, Owned, MoneyValid, Linked, ExpireLocked, ConvertHold, ConfirmTx, Post;
    ConfirmParts(s, id, decider, now, clock, allocation, site);
    if Overdue(s.bookings[id], now) {
      ExpireLockedKeeps(s, id, ExpireLocked(s, id).value);
    } else {
      var h := FindActive(s.stock, id).value;
      var b1 := Moved(s.bookings[id], BookingStatus.Confirmed);
      FoundIsActive(s.stock, id);
      ConvertHoldKeepsStock(s.stock, h, allocation, clock, site);
      ConversionConfirms(s.bookings, s.stock, id, b1, h, allocation, clock, site);
      ConfirmationLinks(s.bookings, s.ledger, s.outbox, id);
      var l1 := Post(s.ledger, BookingConfirmedKey(id), ConfirmedEvent(b1, id)).value;
      NoiseKeepsMoney(l1, s.outbox, [StockMessage(HoldConverted, h), BookingMessage(BookingNews.BookingConfirmed, id)]);
    }
  }

  lemma FailoverKeepsStock(k: Stock, id: Id, current: Id, f: Failover, now: int)
    requires StockValid(k) && FailoverStock(k, id, current, f, now).Commit?
    ensures StockValid(FailoverStock(k, id, current, f, now).value.0)
  {
    FailoverParts(k, id, current, f, now);
    PlaceHoldKeepsStock(k, f.hold, f.session, id, f.quantity, FailoverDue(f, now).GetOr(now + 60000), FailoverReference(id, f.plan), f.clock, f.site);
    var (k1, h) := PlacedIn(k, id, f, now).value;
    LeaveHoldKeepsStock(k1, current, Released);
    if f.mode == Instant {
      ConvertHoldKeepsStock(LeaveHold(k1, current, Released).value, h, f.allocation, f.clock, f.site);
    }
  }

  lemma FailoverTxKeeps(s: State, id: Id, f: Failover, now: int, s': State)
    requires StateValid(s) && id in s.bookings && s.bookings[id].recordType == Canonical && IsPending(s.bookings[id].status)
    requires FailoverTx(s, id, f, now) == Commit(s')
    ensures StateValid(s')
    ensures SameHoldsElsewhere(s.stock, s'.stock, id)
    ensures f.mode != Instant ==> (HasHold(s'.stock, id) <==> FreshKey(s.stock, id, f))
    ensures f.mode == Instant ==> FreshKey(s.stock, id, f)
  {
    hide StockValid, Owned, MoneyValid, FailoverStock, FreshKey, HasHold;
    var b' := FailedOverBooking(s.bookings[id], f, now);
    var current := FindActive(s.stock, id).value;
    FoundIsActive(s.stock, id);
    FailoverKeepsStock(s.stock, id, current, f, now);
    FailoverKeepsOwnership(s.bookings, s.stock, id, b', current, f, now);
    var h := FailoverStock(s.stock, id, current, f, now).value.1;
    NoiseKeepsMoney(s.ledger, s.outbox, [StockMessage(HoldPlaced, h), StockMessage(HoldReleased, current), BookingMessage(FailedOver, id)]);
    assert BookingLinked(s.bookings, s.ledger, id);
    RelinkOne(s.bookings, s.ledger, id, b', s.ledger);
  }

  lemma RejectParts(s: State, id: Id, decider: Decider, reason: string, now: int, failover: Option<Failover>)
    requires RejectTx(s, id, decider, reason, now, failover).Commit?
    ensures id in s.bookings && s.bookings[id].recordType == Canonical && IsPending(s.bookings[id].status)
    ensures var t := RejectTx(s, id, decider, reason, now, failover);
            if Overdue(s.bookings[id], now) then t == ExpireLocked(s, id)
            else if decider.ByVendor? && failover.Some? then t == FailoverTx(s, id, failover.value, now)
            else var h := FindActive(s.stock, id);
                 && h.Some? && LeaveHold(s.stock, h.value, Released).Commit?
                 && t.value == s.(bookings := s.bookings[id := Moved(s.bookings[id], if decider.ByVendor? then VendorRejected else ManualRejected)],
                                  stock := LeaveHold(s.stock, h.value, Released).value,
                                  outbox := s.outbox + [StockMessage(HoldReleased, h.value), BookingMessage(BookingRejected, id)])
  {
    hide ExpireLocked, FailoverTx, LeaveHold, FindActive, RequestFingerprint.Trim;
  }

  lemma RejectTxKeeps(s: State, id: Id, decider: Decider, reason: string, now: int, failover: Option<Failover>, s': State)
    requires StateValid(s) && RejectTx(s, id, decider, reason, now, failover) == Commit(s')
    ensures StateValid(s')
    ensures SameHoldsElsewhere(s.stock, s'.stock, id)
  {
    hide StateValid, ExpireLocked, FailoverTx, LeaveHold, RejectTx;
    RejectParts(s, id, decider, reason, now, failover);
    if Overdue(s.bookings[id], now) {
      ExpireLockedKeeps(s, id, ExpireLocked(s, id).value);
    } else if decider.ByVendor? && failover.Some? {
      FailoverTxKeeps(s, id, failover.value, now, FailoverTx(s, id, failover.value, now).value);
    } else {
      var h := FindActive(s.stock, id).value;
      FoundIsActive(s.stock, id);
      LetGoKeeps(s, id, if decider.ByVendor? then VendorRejected else ManualRejected, h, Released,
                 [StockMessage(HoldReleased, h), BookingMessage(BookingRejected, id)]);
    }
  }

  /** A live booking that stays live keeps its capacity. */
  lemma StaysLive(bs: map<Id, Booking>, k: Stock, id: Id, b': Booking)
    requires Owned(bs, k) && id in bs && Live(bs[id].status) && Live(b'.status) && bs[id].recordType == b'.recordType
    ensures Owned(bs[id := b'], k)
  {
    forall h | h in k.holds
      ensures HoldOwned(bs[id := b'], k.holds[h])
    {
      assert HoldOwned(bs, k.holds[h]);
    }
    forall a | a in k.allocations
      ensures AllocationOwned(bs[id := b'], k.allocations[a])
    {
      assert AllocationOwned(bs, k.allocations[a]);
    }
    forall b | b in bs[id := b'] && bs[id := b'][b].recordType == Canonical && Live(bs[id := b'][b].status)
      ensures HasAllocation(k, b)
    {
      assert Live(bs[b].status);
    }
  }

  lemma ServeTxKeeps(s: State, id: Id, vendor: Id, news: BookingNews, s': State)
    requires StateValid(s) && ServeTx(s, id, vendor, news) == Commit(s')
    ensures StateValid(s') && s'.stock == s.stock
  {
    hide StockValid, Owned, MoneyValid;
    var b' := s'.bookings[id];
    StaysLive(s.bookings, s.stock, id, b');
    NoiseKeepsMoney(s.ledger, s.outbox, [BookingMessage(news, id)]);
    assert BookingLinked(s.bookings, s.ledger, id);
    RelinkOne(s.bookings, s.ledger, id, b', s.ledger);
  }

  lemma CapacityTxKeeps(s: State, session: Id, total: int, blocked: int, s': State)
    requires StateValid(s) && CapacityTx(s, session, total, blocked) == Commit(s')
    ensures StateValid(s')
    ensures s'.stock.holds == s.stock.holds
  {
    hide StockValid, MoneyValid, Linked;
    AdjustCapacityKeepsStock(s.stock, session, total, blocked);
    var k' := s'.stock;
    forall b | b in s.bookings && s.bookings[b].recordType == Canonical && Live(s.bookings[b].status)
      ensures HasAllocation(k', b)
    {
      assert HasAllocation(s.stock, b);
    }
  }
}
