/** What the transactions write, told in the terms of their callers and of the tables alone. */
module Effects {
  import opened Wrappers
  import opened Text
  import opened Policy
  import opened RequestFingerprint
  import opened Terms
  import opened Stock
  import opened EventKeys
  import opened Ledger
  import opened LedgerInvariant
  import opened LedgerReplay
  import opened Store
  import opened Ownership
  import opened StoreInvariant
  import opened Races
  import opened Outcomes
  import opened Canonical
  import Calendar
  import Charges

  type Id = string

  // ---------- cancelling a confirmed booking ----------

  predicate HasStarted(b: Booking, now: int) {
    b.snapshot.Some? && b.snapshot.value.startsAt.Some? && now >= b.snapshot.value.startsAt.value
  }

  predicate InBand(rule: Rule, days: int) {
    rule.minDays <= days && (rule.maxDays.Some? ==> days <= rule.maxDays.value)
  }

  /** The zone of the snapshot, else of its session, else of the booking, else UTC. */
  predicate ZoneOf(b: Booking, zone: string) {
    var first := if b.snapshot.Some? then b.snapshot.value.timezone else None;
    var second := if b.snapshot.Some? then b.snapshot.value.sessionTimezone else None;
    zone == first.GetOr(second.GetOr(b.timezone.GetOr("UTC")))
  }

  /** A row filed under this rule: its charge on the economics of the booking, the rest to be refunded. */
  predicate FiledUnder(c: Cancellation, b: Booking, rule: Rule)
    requires b.snapshot.Some? && b.economics.Some?
  {
    var amount := b.economics.value.finalAmount;
    && c.facts.matchedRule == Some(rule) && c.facts.policyFingerprint == Some(b.snapshot.value.policyFingerprint)
    && c.bookingAmount == amount && c.currency == b.economics.value.currency
    && c.charge == Charges.Charge(amount, rule) && c.entitlement == amount - c.charge
    && c.state == (if c.entitlement == 0 then NoRefund else RefundPending) && c.resolution.None? && ZoneOf(b, c.facts.timezone)
  }

  lemma ConfirmedTerms(id: Id, b: Booking, now: int, today: Day)
    requires b.snapshot.Some? && b.economics.Some? && Accepted(b.snapshot.value.rules)
    ensures HasStarted(b, now) ==> Calculate(id, b, now, today) == Ineligible(ServiceAlreadyStarted)
    ensures !HasStarted(b, now) ==>
              var rules, days := b.snapshot.value.rules, Calendar.DateDifference(b.serviceDay, today);
              && ((forall i :: 0 <= i < |rules| ==> !InBand(rules[i], days)) ==> Calculate(id, b, now, today) == Ineligible(PolicyNoMatch))
              && (forall i :: 0 <= i < |rules| && InBand(rules[i], days) ==>
                    Calculate(id, b, now, today).Eligible? && Calculate(id, b, now, today).rule == Some(rules[i]))
  {
    hide HashOf, Charges.Charge, Charges.Refund, Calendar.DateDifference, Accepted;
    var rules, days := b.snapshot.value.rules, Calendar.DateDifference(b.serviceDay, today);
    AcceptedMatchesAtMostOne(rules, days);
    forall i | 0 <= i < |rules|
      ensures InBand(rules[i], days) <==> Covers(rules[i], days)
    {
    }
    hide Covers;
    if forall i :: 0 <= i < |rules| ==> !InBand(rules[i], days) { MatchesNone(rules, days); }
  }

  lemma ConfirmedFiles(b: Booking, r: AgentRequest, d: Draw)
    requires b.status == BookingStatus.Confirmed && Calculate(r.booking, b, d.now, d.today).Eligible?
    requires b.snapshot.Some? && b.economics.Some?
    ensures var c := Calculate(r.booking, b, d.now, d.today); c.rule.Some? && FiledUnder(AgentCancellation(b, c, r, d.now), b, c.rule.value)
  {
    hide HashOf, Charges.Charge, Charges.Refund, Calendar.DateDifference, Matches, Trim, RequestHash;
    RefundIsTheRest(b.economics.value.finalAmount, Calculate(r.booking, b, d.now, d.today).rule.value);
  }

  /** Closing a booking never answers with a reason that belongs to its terms. */
  lemma CloseAnswers(s: State, id: Id, c: Cancellation, cid: Id, rid: Id)
    requires id in s.bookings
    ensures Close(s, id, c, cid, rid) != Abort(ServiceAlreadyStarted) && Close(s, id, c, cid, rid) != Abort(PolicyNoMatch)
  {
    hide ActiveHolds, ConfirmedAllocations, CancelledEvent, CreatedEvent;
  }

  lemma ConfirmedIsOpen(s: State, id: Id)
    requires StateValid(s) && id in s.bookings && s.bookings[id].recordType == Canonical && s.bookings[id].status == BookingStatus.Confirmed
    ensures id !in s.ledger.cancellationOf && s.bookings[id].snapshot.Some? && s.bookings[id].economics.Some?
    ensures Accepted(s.bookings[id].snapshot.value.rules)
  {
    hide StockValid, Owned, MoneyValid, Accepted;
    assert BookingLinked(s.bookings, s.ledger, id);
  }

  lemma ConfirmedAnswer(s: State, r: AgentRequest, d: Draw)
    requires r.booking in s.bookings && Some(s.bookings[r.booking].agent) == r.user.tenant && r.booking !in s.ledger.cancellationOf
    requires s.bookings[r.booking].recordType == Canonical && s.bookings[r.booking].status == BookingStatus.Confirmed
    ensures var c := Calculate(r.booking, s.bookings[r.booking], d.now, d.today);
            if c.Ineligible? then AgentTx(s, r, d) == Abort(c.reason)
            else AgentTx(s, r, d) != Abort(ServiceAlreadyStarted) && AgentTx(s, r, d) != Abort(PolicyNoMatch)
  {
    hide Close, Calculate, AgentCancellation;
    var b := s.bookings[r.booking];
    var c := Calculate(r.booking, b, d.now, d.today);
    if c.Eligible? { CloseAnswers(s, r.booking, AgentCancellation(b, c, r, d.now), d.cancellation, d.refund); }
  }

  /** The agent's cancellation of a confirmed booking: refused as started exactly from the start on, as not covered exactly when no band
      of the policy contains the days left, and otherwise filed under the band that does. */
  lemma ConfirmedCancellationTold(s: State, r: AgentRequest, d: Draw)
    requires StateValid(s) && r.booking in s.bookings && Some(s.bookings[r.booking].agent) == r.user.tenant
    requires s.bookings[r.booking].recordType == Canonical && s.bookings[r.booking].status == BookingStatus.Confirmed
    ensures var b := s.bookings[r.booking]; b.snapshot.Some? && b.economics.Some?
    ensures AgentTx(s, r, d) == Abort(ServiceAlreadyStarted) <==> HasStarted(s.bookings[r.booking], d.now)
    ensures var b := s.bookings[r.booking];
            AgentTx(s, r, d) == Abort(PolicyNoMatch) <==>
              !HasStarted(b, d.now)
              && forall i :: 0 <= i < |b.snapshot.value.rules| ==> !InBand(b.snapshot.value.rules[i], Calendar.DateDifference(b.serviceDay, d.today))
    ensures AgentTx(s, r, d).Commit? ==>
              var b, l := s.bookings[r.booking], AgentTx(s, r, d).value.0.ledger;
              d.cancellation in l.cancellations
              && exists i :: 0 <= i < |b.snapshot.value.rules|
                             && InBand(b.snapshot.value.rules[i], Calendar.DateDifference(b.serviceDay, d.today))
                             && FiledUnder(l.cancellations[d.cancellation], b, b.snapshot.value.rules[i])
  {
    var b := s.bookings[r.booking];
    hide StateValid, AgentTx, Calculate, AgentCancellation, FiledUnder, HasStarted, InBand, Accepted, Calendar.DateDifference;
    ConfirmedIsOpen(s, r.booking);
    ConfirmedTerms(r.booking, b, d.now, d.today);
    ConfirmedAnswer(s, r, d);
    if AgentTx(s, r, d).Commit? {
      FiledAsApplied(s, r, d, AgentTx(s, r, d).value.0, AgentTx(s, r, d).value.1);
      ConfirmedFiles(b, r, d);
    }
  }

  /** What no terms decide: a pending booking withdrawn by its agent, or anything cancelled by its vendor or an administrator, is filed for
      nothing with the booking's own amount, currency and zone, and left to finance. */
  lemma UndecidedTold(s: State, a: AgentRequest, o: OperationalRequest, d: Draw)
    requires StateValid(s)
    ensures AgentTx(s, a, d).Commit? && a.booking !in s.ledger.cancellationOf ==>
              && a.booking in s.bookings && d.cancellation in AgentTx(s, a, d).value.0.ledger.cancellations
              && (IsPending(s.bookings[a.booking].status) ==>
                    LeftToFinance(AgentTx(s, a, d).value.0.ledger.cancellations[d.cancellation], s.bookings[a.booking]))
    ensures OperationalTx(s, o, d).Commit? && o.booking !in s.ledger.cancellationOf ==>
              && o.booking in s.bookings && d.cancellation in OperationalTx(s, o, d).value.0.ledger.cancellations
              && LeftToFinance(OperationalTx(s, o, d).value.0.ledger.cancellations[d.cancellation], s.bookings[o.booking])
  {
    hide StateValid, AgentTx, OperationalTx, LeftToFinance, AgentCancellation, OperationalCancellation, CalculationFor;
    if AgentTx(s, a, d).Commit? && a.booking !in s.ledger.cancellationOf {
      FiledAsApplied(s, a, d, AgentTx(s, a, d).value.0, AgentTx(s, a, d).value.1);
      if IsPending(s.bookings[a.booking].status) { WithdrawnRow(s.bookings[a.booking], a, d); }
    }
    if OperationalTx(s, o, d).Commit? && o.booking !in s.ledger.cancellationOf {
      FiledOperational(s, o, d, OperationalTx(s, o, d).value.0, OperationalTx(s, o, d).value.1);
      OperationalRow(s.bookings[o.booking], o, d);
    }
  }

  predicate LeftToFinance(c: Cancellation, b: Booking) {
    && c.charge == 0 && c.entitlement == 0 && c.state == PendingFinancial && c.resolution.None?
    && c.bookingAmount == b.amount && c.currency == b.currency && ZoneOf(b, c.facts.timezone)
    && c.facts.matchedRule.None? && c.facts.policyFingerprint.None?
  }

  lemma WithdrawnRow(b: Booking, r: AgentRequest, d: Draw)
    requires IsPending(b.status)
    ensures CalculationFor(r.booking, b, d.now, d.today).Eligible?
    ensures LeftToFinance(AgentCancellation(b, CalculationFor(r.booking, b, d.now, d.today), r, d.now), b)
  {
    hide HashOf, Calendar.DateDifference, Trim;
  }

  lemma OperationalRow(b: Booking, r: OperationalRequest, d: Draw)
    ensures LeftToFinance(OperationalCancellation(b, r, d), b)
  {
    hide HashOf, Calendar.DateDifference, Trim;
  }

  // ---------- who may ask ----------

  /** Something is left of the text when its outer spaces are cut. */
  predicate SaysSomething(text: string) {
    exists i :: 0 <= i < |text| && !IsSpace(text[i])
  }

  lemma TrimmedSays(text: string)
    ensures Trim(text) != "" <==> SaysSomething(text)
  {
    hide Trim, IsSpace;
    var from, to := TrimCutsSpaces(text);
  }

  /** An agent's request reaches the store exactly when it comes from a travel agent of some tenant, names a key and a reason, and
      acknowledges the terms; an operational one when it names a reason and, in a vendor's name, comes from a vendor of some tenant. */
  lemma OnlyProperRequestsAct(a: AgentRequest, o: OperationalRequest)
    ensures AgentRefusal(a).None? <==>
              && a.user.role == TravelAgent && a.user.tenant.GetOr("") != "" && SaysSomething(a.key) && SaysSomething(a.reason) && a.acknowledged
    ensures OperationalRefusal(o).None? <==>
              SaysSomething(o.reason) && (o.initiator == Vendor ==> o.user.role == VendorUser && o.user.tenant.GetOr("") != "")
    ensures OperationalKey(o) == if o.key.Some? && SaysSomething(o.key.value) then Some(Trim(o.key.value)) else None
  {
    hide Trim, SaysSomething;
    TrimmedSays(a.key);
    TrimmedSays(a.reason);
    TrimmedSays(o.reason);
    if o.key.Some? { TrimmedSays(o.key.value); }
  }

  /** The fingerprint a request is stored under: an operational one without a key is filed under the word operational. */
  lemma RequestPrinted(b: Booking, c: Calculation, a: AgentRequest, o: OperationalRequest, d: Draw)
    requires c.Eligible?
    ensures AgentCancellation(b, c, a, d.now).facts.requestFingerprint
            == HashOf([Field("bookingId", String(a.booking)), Field("key", String(Trim(a.key))), Field("category", String(a.category)),
                       Field("reason", String(Trim(a.reason)))])
    ensures OperationalCancellation(b, o, d).facts.requestFingerprint
            == HashOf([Field("bookingId", String(o.booking)),
                       Field("key", String(if o.key.Some? && SaysSomething(o.key.value) then Trim(o.key.value) else "operational")),
                       Field("category", String(o.category)), Field("reason", String(Trim(o.reason)))])
  {
    hide HashOf, Trim, SaysSomething, Calendar.DateDifference;
    if o.key.Some? { TrimmedSays(o.key.value); }
  }

  // ---------- finance ----------

  /** A resolution files the charge as the charge and the refund as the entitlement, opens a refund of exactly that when there is any,
      and tells event and messages the same; no other row is touched. */
  lemma ResolutionTold(s: State, r: ResolutionRequest, rid: Id, s': State)
    requires StateValid(s) && ResolveTx(s, r, rid) == Commit(s')
    ensures r.cancellation in s.ledger.cancellations && ParseMoney(r.charge).Some? && ParseMoney(r.refund).Some?
    ensures var cid, charge, refund := r.cancellation, ParseMoney(r.charge).value, ParseMoney(r.refund).value;
            var c := s.ledger.cancellations[cid];
            var state := if refund == 0 then NoRefund else RefundPending;
            && s' == s.(ledger := s'.ledger, outbox := s'.outbox) && s'.ledger.cancellationOf == s.ledger.cancellationOf
            && s'.ledger.cancellations == s.ledger.cancellations[cid :=
                 c.(charge := charge, entitlement := refund, state := state, resolution := Some(Resolution(charge, refund, Trim(r.reason))))]
            && ResolvedKey(cid) !in s.ledger.events && ResolvedKey(cid) in s'.ledger.events
            && s'.ledger.events[ResolvedKey(cid)]
               == FinancialEvent(ResolvedEvent, Posted, c.booking, VendorOf(s, c.booking), Some(cid), None, c.currency, Some(charge),
                                 Note(Some(r.user.sub), Some(Trim(r.reason)), None))
            && if refund == 0 then
                 && s'.ledger.refunds == s.ledger.refunds && s'.ledger.refundOf == s.ledger.refundOf
                 && s'.ledger.events == s.ledger.events[ResolvedKey(cid) := s'.ledger.events[ResolvedKey(cid)]]
                 && s'.outbox == s.outbox + [FinancialResolved(cid, c.booking, charge, refund, state)]
               else
                 && rid !in s.ledger.refunds && cid !in s.ledger.refundOf
                 && s'.ledger.refunds == s.ledger.refunds[rid := Refund(c.booking, cid, refund, c.currency, RefundStatus.Pending, None, None, 1, r.user.sub)]
                 && s'.ledger.refundOf == s.ledger.refundOf[cid := rid]
                 && RefundCreatedKey(rid) in s'.ledger.events && s'.ledger.events[RefundCreatedKey(rid)].amount == Some(refund)
                 && s'.ledger.events == s.ledger.events[ResolvedKey(cid) := s'.ledger.events[ResolvedKey(cid)]]
                                                       [RefundCreatedKey(rid) := s'.ledger.events[RefundCreatedKey(rid)]]
                 && s'.outbox == s.outbox + [RefundCreated(rid, c.booking, cid, refund), FinancialResolved(cid, c.booking, charge, refund, state)]
  {
    hide StockValid, Owned, Linked, Mirrors, CountsTrue, LedgerValid, ParseMoney, Trim, VendorOf, ResolvedEvents, ResolvedRows, ResolvedRow;
    var vendor := VendorOf(s, s.ledger.cancellations[r.cancellation].booking);
    ResolveShape(s.ledger, vendor, r.cancellation, ParseMoney(r.charge).value, ParseMoney(r.refund).value, Trim(r.reason), rid, r.user.sub);
  }

  /** A refund transition that changes anything moves the refund and its cancellation together, under the next version, logs an outcome
      once under that version, and tells it; no other row is touched. */
  lemma PayoutTold(s: State, user: User, rid: Id, a: RefundAction, s': State)
    requires StateValid(s) && RefundTx(s, user, rid, a) == Commit(s')
    ensures rid in s.ledger.refunds && s.ledger.refunds[rid].cancellation in s.ledger.cancellations
    ensures var f := s.ledger.refunds[rid];
            match a
            case ConfirmWith(text) =>
              if f.status == RefundStatus.Confirmed then s' == s && f.reference == Some(Trim(text))
              else
                && f.status == RefundStatus.Pending
                && MovedTo(s, s', rid, f.(status := RefundStatus.Confirmed, reference := Some(Trim(text)), version := f.version + 1), Refunded)
                && s'.ledger.events == s.ledger.events[RefundConfirmedKey(rid, f.version + 1) :=
                     FinancialEvent(RefundConfirmedEvent, Posted, f.booking, VendorOf(s, f.booking), Some(f.cancellation), Some(rid), f.currency,
                                    Some(f.amount), Note(Some(user.sub), None, Some(Trim(text))))]
                && s'.outbox == s.outbox + [RefundConfirmed(rid, f.booking, f.cancellation, f.amount, Trim(text))]
            case FailWith(text) =>
              if f.status == RefundStatus.Failed then s' == s
              else
                && f.status == RefundStatus.Pending
                && MovedTo(s, s', rid, f.(status := RefundStatus.Failed, failureReason := Some(Trim(text)), version := f.version + 1), FinancialState.RefundFailed)
                && s'.ledger.events == s.ledger.events[RefundFailedKey(rid, f.version + 1) :=
                     FinancialEvent(RefundFailedEvent, Unsuccessful, f.booking, VendorOf(s, f.booking), Some(f.cancellation), Some(rid), f.currency,
                                    Some(f.amount), Note(Some(user.sub), Some(Trim(text)), None))]
                && s'.outbox == s.outbox + [Message.RefundFailed(rid, f.booking, f.cancellation, f.amount, Trim(text))]
            case Retry =>
              && f.status == RefundStatus.Failed
              && MovedTo(s, s', rid, f.(status := RefundStatus.Pending, failureReason := None, version := f.version + 1), RefundPending)
              && s'.ledger.events == s.ledger.events
              && s'.outbox == s.outbox + [RefundRetried(rid, f.booking, f.cancellation, f.amount)]
  {
    hide StockValid, Owned, Linked, Mirrors, CountsTrue, LedgerValid, Trim, VendorOf, MovedRows;
    var f := s.ledger.refunds[rid];
    var action := RefundActionFor(a).value;
    TransitionShape(s.ledger, VendorOf(s, f.booking), rid, action, user.sub);
    TransitionRuns(s.ledger, VendorOf(s, f.booking), rid, action, user.sub);
    RowsMoved(s.ledger, rid, SettledRow(f, action));
    assert s.outbox + [] == s.outbox;
  }

  /** One refund and its cancellation have moved, and nothing else of the tables. */
  ghost predicate MovedTo(s: State, s': State, rid: Id, f: Refund, state: FinancialState)
    requires f.cancellation in s.ledger.cancellations
  {
    && s'.bookings == s.bookings && s'.stock == s.stock
    && s'.ledger == s.ledger.(refunds := s.ledger.refunds[rid := f], events := s'.ledger.events,
                              cancellations := s.ledger.cancellations[f.cancellation := s.ledger.cancellations[f.cancellation].(state := state)])
  }

  lemma RowsMoved(l: Ledger, rid: Id, f: Refund)
    requires f.cancellation in l.cancellations
    ensures MovedRows(l, rid, f)
            == l.(refunds := l.refunds[rid := f],
                  cancellations := l.cancellations[f.cancellation := l.cancellations[f.cancellation].(state := StateFor(f.status))])
  {
  }

  // ---------- a booking's life ----------

  /** A pending booking, of a vendor or under manual review, expires exactly from its deadline on, whether the sweep or a decision comes
      upon it; before it a decision stands. */
  lemma DeadlineTold(s: State, id: Id, deadline: int, now: int, decider: Decider, clock: int, allocation: Id, site: Site, reason: string)
    requires StateValid(s) && id in s.bookings && s.bookings[id].recordType == Canonical && s.bookings[id].dueAt == Some(deadline)
    requires s.bookings[id].status == PendingVendor || s.bookings[id].status == PendingManual
    ensures StatusAfter(s, Expires(id, now), id, if now >= deadline then BookingStatus.ConfirmationExpired else s.bookings[id].status)
    ensures ConfirmTx(s, id, decider, now, clock, allocation, site).Commit? ==>
              StatusAfter(s, Confirms(id, decider, now, clock, allocation, site), id,
                          if now >= deadline then BookingStatus.ConfirmationExpired else BookingStatus.Confirmed)
    ensures RejectTx(s, id, decider, reason, now, None).Commit? ==>
              StatusAfter(s, Rejects(id, decider, reason, now, None), id,
                          if now >= deadline then BookingStatus.ConfirmationExpired
                          else if s.bookings[id].status == PendingVendor then VendorRejected else ManualRejected)
  {
    hide StateValid, ConvertHold, LeaveHold, FindActive, Post, ConfirmedEvent, Trim;
    ExpiryGoes(s, id);
  }

  ghost predicate StatusAfter(s: State, step: Step, id: Id, status: BookingStatus) {
    id in Next(s, step).bookings && Next(s, step).bookings[id].status == status
  }

  /** A new booking: on the quote's amount and currency, confirmed at once or waiting for the vendor or for a manual review until the
      deadline its lock time gives. */
  lemma CreationTold(s: State, n: NewBooking, s': State)
    requires CreateTx(s, n) == Commit(s')
    ensures n.id !in s.bookings && n.id in s'.bookings
    ensures var b := s'.bookings[n.id];
            && s'.bookings == s.bookings[n.id := b]
            && b.recordType == Canonical && b.version == 1 && b.agent == n.agent && b.vendor == n.vendor
            && b.amount == n.economics.finalAmount && b.currency == n.economics.currency && b.economics == Some(n.economics)
            && b.snapshot == Some(n.snapshot) && b.serviceDay == n.serviceDay && b.timezone == n.timezone
            && b.status == (match n.mode case Instant => BookingStatus.Confirmed case VendorConfirmation => PendingVendor case ManualOnRequest => PendingManual)
            && b.dueAt == (if n.mode == Instant then None else Some(n.now + n.slaMinutes * 60000))
  {
    hide AllocateDirectly, PlaceHold, Post, ConfirmedEvent, Accepted;
  }

  /** A failover that goes through: the booking is the other supplier's on that supplier's terms, at the lower of the two amounts, with a
      new deadline unless it is confirmed at once; whose it is stays. */
  lemma FailoverTold(s: State, id: Id, f: Failover, now: int, s': State)
    requires id in s.bookings && FailoverTx(s, id, f, now) == Commit(s')
    ensures id in s'.bookings
    ensures var b, b' := s.bookings[id], s'.bookings[id];
            && s'.bookings == s.bookings[id := b'] && s'.ledger == s.ledger
            && b'.recordType == b.recordType && b'.version == b.version + 1 && b'.agent == b.agent && b'.vendor == f.vendor
            && b'.amount <= b.amount && b'.amount <= f.economics.finalAmount && (b'.amount == b.amount || b'.amount == f.economics.finalAmount)
            && b'.currency == f.economics.currency && b'.economics == Some(f.economics)
            && b'.snapshot == Some(f.snapshot) && b'.serviceDay == f.serviceDay && b'.timezone == f.timezone
            && b'.status == (match f.mode case Instant => BookingStatus.Confirmed case VendorConfirmation => PendingVendor case ManualOnRequest => PendingManual)
            && b'.dueAt == (if f.mode == Instant then None else Some(now + f.lockMinutes * 60000))
  {
    hide FailoverStock, FindActive, Accepted;
  }
}
