/** Races between callers: a call reads first without a lock and acts later under one, with any run in between. */
module Races {
  import opened Wrappers
  import opened RequestFingerprint
  import opened Terms
  import opened Stock
  import opened Ledger
  import opened LedgerInvariant
  import opened LedgerReplay
  import opened Store
  import opened Ownership
  import opened StoreInvariant
  import opened Runs
  import opened History
  import Calendar
  import Charges
  import Policy

  type Id = string

  // ---------- whole calls ----------

  /** An agent's call: checks, the unlocked read of one state, and the transaction on a later one. A unique violation is
      answered by reading again, as the recovery path does. */
  ghost function AgentCall(read: State, s: State, r: AgentRequest, d: Draw): (State, Tx<Id>) {
    if AgentRefusal(r).Some? then (s, Abort(AgentRefusal(r).value))
    else if AgentPreRead(read, r).Some? then (s, AgentPreRead(read, r).value)
    else
      var t := AgentTx(s, r, d);
      if t.Commit? then (t.value.0, Commit(t.value.1))
      else if t.error == UniqueViolation then
        (s, if AgentPreRead(s, r).Some? then AgentPreRead(s, r).value
            else if r.booking in s.bookings && Some(s.bookings[r.booking].agent) == r.user.tenant then Abort(UniqueViolation) else Abort(NotFound))
      else (s, Abort(t.error))
  }

  ghost function OperationalCall(read: State, s: State, r: OperationalRequest, d: Draw): (State, Tx<Id>) {
    if OperationalRefusal(r).Some? then (s, Abort(OperationalRefusal(r).value))
    else if OperationalPreRead(read, r).Some? then (s, Commit(OperationalPreRead(read, r).value))
    else
      var t := OperationalTx(s, r, d);
      if t.Commit? then (t.value.0, Commit(t.value.1)) else (s, Abort(t.error))
  }

  // ---------- the first writer wins ----------

  /** The read saw this agent's own key already used, for another request. */
  ghost predicate KeyReused(read: State, r: AgentRequest) {
    && r.booking in read.ledger.cancellationOf
    && read.ledger.cancellationOf[r.booking] in read.ledger.cancellations
    && var c := read.ledger.cancellations[read.ledger.cancellationOf[r.booking]];
       c.facts.key == Some(Trim(r.key)) && !(c.facts.category == r.category && c.facts.reason == Trim(r.reason))
  }

  lemma BookingsStay(s: State, s': State, id: Id)
    requires Grows(s, s') && id in s.bookings
    ensures id in s'.bookings && s'.bookings[id].agent == s.bookings[id].agent && s'.bookings[id].recordType == s.bookings[id].recordType
  {
  }

  lemma CancellationStays(s: State, s': State, id: Id)
    requires Grows(s, s') && Indexed(s.ledger) && id in s.ledger.cancellationOf
    ensures id in s'.ledger.cancellationOf && s'.ledger.cancellationOf[id] == s.ledger.cancellationOf[id]
    ensures var cid := s.ledger.cancellationOf[id];
            cid in s.ledger.cancellations && cid in s'.ledger.cancellations
            && s'.ledger.cancellations[cid].facts == s.ledger.cancellations[cid].facts
  {
    hide FactsTrue, StockGrows, BookingsGrow;
  }

  /** A stored fingerprint equals a request's under the same key only when category and trimmed reason do. */
  lemma DuplicateTold(read: State, r: AgentRequest, cid: Id)
    requires cid in read.ledger.cancellations && FactsTrue(read.ledger.cancellations[cid])
    requires read.ledger.cancellations[cid].booking == r.booking && read.ledger.cancellations[cid].facts.key == Some(Trim(r.key))
    ensures AnswerDuplicate(read, r, cid)
            == if read.ledger.cancellations[cid].facts.category == r.category && read.ledger.cancellations[cid].facts.reason == Trim(r.reason)
               then Commit(cid) else Abort(IdempotencyKeyReused)
  {
    hide HashOf, Trim;
    var f := read.ledger.cancellations[cid].facts;
    if f.requestFingerprint == AgentHash(r) {
      RequestHashInjective(r.booking, Trim(r.key), f.category, f.reason, r.category, Trim(r.reason));
    }
  }

  ghost predicate AllFactsTrue(l: Ledger) {
    forall c :: c in l.cancellations ==> FactsTrue(l.cancellations[c])
  }

  lemma FactsStayTrue(s: State, s': State)
    requires Grows(s, s') && AllFactsTrue(s.ledger)
    ensures AllFactsTrue(s'.ledger)
  {
    hide RequestHash, Trim;
    forall c | c in s'.ledger.cancellations
      ensures FactsTrue(s'.ledger.cancellations[c])
    {
      assert c in s.ledger.cancellations ==> CancellationGrows(s.ledger.cancellations[c], s'.ledger.cancellations[c]);
    }
  }

  lemma PreReadTold(read: State, r: AgentRequest)
    requires Indexed(read.ledger) && AllFactsTrue(read.ledger)
    requires r.booking in read.bookings && Some(read.bookings[r.booking].agent) == r.user.tenant
    requires r.booking in read.ledger.cancellationOf
    ensures var cid := read.ledger.cancellationOf[r.booking];
            && cid in read.ledger.cancellations
            && AgentPreRead(read, r)
               == if read.ledger.cancellations[cid].facts.key != Some(Trim(r.key)) then None
                  else if KeyReused(read, r) then Some(Abort(IdempotencyKeyReused)) else Some(Commit(cid))
  {
    hide FactsTrue, Trim, AnswerDuplicate;
    var cid := read.ledger.cancellationOf[r.booking];
    assert FactsTrue(read.ledger.cancellations[cid]);
    if read.ledger.cancellations[cid].facts.key == Some(Trim(r.key)) {
      DuplicateTold(read, r, cid);
    }
  }

  /** Once a booking is cancelled, every later or concurrent call of its agent changes nothing and is answered with that same
      cancellation, unless its read already saw the caller's key used for a different request. */
  lemma FirstWriterWinsForAgents(start: State, before: seq<Step>, between: seq<Step>, r: AgentRequest, d: Draw)
    requires StateValid(start) && AllFactsTrue(start.ledger) && AgentRefusal(r).None?
    requires var s := Run(Run(start, before), between);
             r.booking in s.ledger.cancellationOf && r.booking in s.bookings && Some(s.bookings[r.booking].agent) == r.user.tenant
    ensures var read := Run(start, before);
            var s := Run(read, between);
            AgentCall(read, s, r, d)
            == (s, if KeyReused(read, r) then Abort(IdempotencyKeyReused) else Commit(s.ledger.cancellationOf[r.booking]))
  {
    var read := Run(start, before);
    var s := Run(read, between);
    hide Run, Grows, KeyReused, AgentPreRead, AgentRefusal, StockValid, Owned, Mirrors, CountsTrue, Linked, AllLockstep, VersionsTold, EventsExact, AllFactsTrue;
    RunKeeps(start, before);
    RunGrows(start, before);
    RunGrows(read, between);
    FactsStayTrue(start, read);
    AgentAnswered(read, s, r, d);
  }

  lemma AgentAnswered(read: State, s: State, r: AgentRequest, d: Draw)
    requires Grows(read, s) && Linked(read.bookings, read.ledger) && Indexed(read.ledger) && AllFactsTrue(read.ledger) && AgentRefusal(r).None?
    requires r.booking in s.ledger.cancellationOf && r.booking in s.bookings && Some(s.bookings[r.booking].agent) == r.user.tenant
    ensures AgentCall(read, s, r, d)
            == (s, if KeyReused(read, r) then Abort(IdempotencyKeyReused) else Commit(s.ledger.cancellationOf[r.booking]))
  {
    assert AgentTx(s, r, d) == Commit((s, s.ledger.cancellationOf[r.booking])) by { hide *; AgentTxRepeats(s, r, d); }
    if r.booking in read.ledger.cancellationOf {
      hide AgentTx, Grows, AgentRefusal, Trim, AllFactsTrue, BookingLinked, AgentPreRead;
      assert r.booking in read.bookings;
      BookingsStay(read, s, r.booking);
      CancellationStays(read, s, r.booking);
      PreReadTold(read, r);
    } else {
      hide AgentTx, Grows, AgentRefusal, Trim, AllFactsTrue, BookingLinked, Linked;
    }
  }

  lemma AgentTxRepeats(s: State, r: AgentRequest, d: Draw)
    requires r.booking in s.ledger.cancellationOf && r.booking in s.bookings && Some(s.bookings[r.booking].agent) == r.user.tenant
    ensures AgentTx(s, r, d) == Commit((s, s.ledger.cancellationOf[r.booking]))
  {
  }

  /** The same for vendors and administrators, who are never asked for a key. */
  lemma FirstWriterWinsForOperations(start: State, before: seq<Step>, between: seq<Step>, r: OperationalRequest, d: Draw)
    requires StateValid(start) && OperationalRefusal(r).None?
    requires var s := Run(Run(start, before), between);
             r.booking in s.ledger.cancellationOf && r.booking in s.bookings && MayTouch(r, s.bookings[r.booking])
    ensures var read := Run(start, before);
            var s := Run(read, between);
            OperationalCall(read, s, r, d) == (s, Commit(s.ledger.cancellationOf[r.booking]))
  {
    var read := Run(start, before);
    var s := Run(read, between);
    hide Run, Grows, OperationalRefusal, StockValid, Owned, Mirrors, CountsTrue, Linked, AllLockstep, VersionsTold, EventsExact, MayTouch;
    RunKeeps(start, before);
    RunKeeps(read, between);
    RunGrows(read, between);
    CancelledIsCanonical(s, r.booking);
    if r.booking in read.ledger.cancellationOf {
      CancellationStays(read, s, r.booking);
    }
  }

  lemma CancelledIsCanonical(s: State, id: Id)
    requires StateValid(s) && id in s.ledger.cancellationOf
    ensures id in s.bookings && s.bookings[id].recordType == Canonical && s.bookings[id].status == BookingStatus.Cancelled
  {
    hide StockValid, Owned, MoneyValid;
    assert id in s.bookings && BookingLinked(s.bookings, s.ledger, id);
  }

  /** Two calls that both succeed on one booking, however they interleave, are answered with the same cancellation. */
  lemma RacersAgree(start: State, first: seq<Step>, second: seq<Step>, id: Id)
    requires StateValid(start) && id in Run(start, first).ledger.cancellationOf
    ensures var s, s' := Run(start, first), Run(start, first + second);
            && id in s'.ledger.cancellationOf && s'.ledger.cancellationOf[id] == s.ledger.cancellationOf[id]
            && id in s.bookings && id in s'.bookings && s'.bookings[id] == s.bookings[id]
  {
    var s := Run(start, first);
    RunComposes(start, first, second);
    hide Run, StockValid, Owned, Mirrors, CountsTrue, StockGrows, LedgerGrows, Linked, AllLockstep, VersionsTold, EventsExact;
    RunKeeps(start, first);
    RunGrows(s, second);
    CancelledIsCanonical(s, id);
    hide Grows;
    CancellationStays(s, Run(s, second), id);
  }

  // ---------- no surprise terms ----------

  /** A preview, some run, then the first cancellation under the previewed fingerprint: the booking is still the very record
      that was previewed, and what is filed is what was shown. One thing may slip: the days before service of a pending withdrawal, which
      its fingerprint does not contain. They are the days previewed exactly when the booking was confirmed or preview and withdrawal fell
      on one local day. */
  lemma NoSurpriseTerms(start: State, before: seq<Step>, between: seq<Step>, r: AgentRequest, d: Draw, now: int, today: Day)
    requires StateValid(start)
    requires var read := Run(start, before);
             && r.booking in read.bookings && Cancellable(read.bookings[r.booking].status)
             && var shown := CalculationFor(r.booking, read.bookings[r.booking], now, today);
                shown.Eligible? && r.expected == shown.fingerprint
    requires var s := Run(Run(start, before), between);
             AgentTx(s, r, d).Commit? && r.booking !in s.ledger.cancellationOf
    ensures var read := Run(start, before);
            var s := Run(read, between);
            var shown := CalculationFor(r.booking, read.bookings[r.booking], now, today);
            && s.bookings[r.booking] == read.bookings[r.booking]
            && d.cancellation in AgentTx(s, r, d).value.0.ledger.cancellations
            && AsShown(shown, AgentTx(s, r, d).value.0.ledger.cancellations[d.cancellation])
            && (AgentTx(s, r, d).value.0.ledger.cancellations[d.cancellation].facts.daysBefore == shown.daysBefore
                <==> read.bookings[r.booking].status == BookingStatus.Confirmed || d.today == today)
  {
    var read := Run(start, before);
    var s := Run(read, between);
    hide Run, StockGrows, LedgerGrows, StateValid, AgentTx, CalculationFor, AsShown, AgentCancellation;
    RunKeeps(start, before);
    RunKeeps(read, between);
    RunGrows(read, between);
    AgentTxParts(s, r, d);
    var b := s.bookings[r.booking];
    SameFingerprintSameTerms(r.booking, read.bookings[r.booking], now, today, r.booking, b, d.now, d.today);
    assert s.bookings[r.booking] == read.bookings[r.booking];
    hide Grows, BookingsGrow;
    FiledAsApplied(s, r, d, AgentTx(s, r, d).value.0, AgentTx(s, r, d).value.1);
    ShownIsApplied(r, b, d, now, today);
    DaysOfRow(r, b, d, now, today);
  }

  lemma DaysOfRow(r: AgentRequest, b: Booking, d: Draw, now: int, today: Day)
    requires Cancellable(b.status)
    requires var c0, c1 := CalculationFor(r.booking, b, now, today), CalculationFor(r.booking, b, d.now, d.today);
             c0.Eligible? && c1.Eligible? && c0.fingerprint == c1.fingerprint
    ensures var c0, c1 := CalculationFor(r.booking, b, now, today), CalculationFor(r.booking, b, d.now, d.today);
            AgentCancellation(b, c1, r, d.now).facts.daysBefore == c0.daysBefore <==> b.status == BookingStatus.Confirmed || d.today == today
  {
    SameFingerprintSameTerms(r.booking, b, now, today, r.booking, b, d.now, d.today);
    Calendar.DifferenceIsAdditive(d.today, today, b.serviceDay);
    Calendar.DifferenceOrdersDates(d.today, today);
    hide HashOf, Charges.Charge, Charges.Refund, Calendar.DateDifference, Policy.Matches, Trim;
  }

  /** Terms previewed for one booking never cancel another. */
  lemma OtherBookingsTermsRefused(s: State, r: AgentRequest, d: Draw, other: Id, b: Booking, now: int, today: Day)
    requires other != r.booking && Cancellable(b.status)
    requires CalculationFor(other, b, now, today).Eligible? && r.expected == CalculationFor(other, b, now, today).fingerprint
    ensures AgentTx(s, r, d).Commit? ==> r.booking in s.ledger.cancellationOf
  {
    hide AgentTx, CalculationFor, Close, AgentCancellation;
    if AgentTx(s, r, d).Commit? && r.booking !in s.ledger.cancellationOf {
      AgentTxParts(s, r, d);
      SameFingerprintSameTerms(other, b, now, today, r.booking, s.bookings[r.booking], d.now, d.today);
    }
  }

  /** What a preview shows of a cancellation, and what the filed row says. */
  predicate AsShown(shown: Calculation, filed: Cancellation)
    requires shown.Eligible?
  {
    && filed.charge == shown.charge && filed.entitlement == shown.refund && filed.bookingAmount == shown.bookingAmount
    && filed.currency == shown.currency && filed.state == shown.state
    && filed.facts.matchedRule == shown.rule && filed.facts.policyFingerprint == shown.policyFingerprint
    && filed.facts.timezone == shown.timezone
  }

  lemma FiledAsApplied(s: State, r: AgentRequest, d: Draw, s': State, cid: Id)
    requires StateValid(s) && AgentTx(s, r, d) == Commit((s', cid)) && r.booking !in s.ledger.cancellationOf
    ensures r.booking in s.bookings
    ensures var c := CalculationFor(r.booking, s.bookings[r.booking], d.now, d.today);
            && c.Eligible? && d.cancellation in s'.ledger.cancellations
            && s'.ledger.cancellations[d.cancellation] == AgentCancellation(s.bookings[r.booking], c, r, d.now)
  {
    hide StockValid, Owned, Linked, Mirrors, CountsTrue, LedgerValid, AgentTx, Close, CalculationFor, AgentCancellation, Record;
    AgentTxParts(s, r, d);
    var b := s.bookings[r.booking];
    var c := AgentCancellation(b, CalculationFor(r.booking, b, d.now, d.today), r, d.now);
    CloseParts(s, r.booking, c, d.cancellation, d.refund);
    RecordAdds(s.ledger, b.vendor, d.cancellation, c, d.refund);
  }

  /** What a filed row says about who asked, when and why. */
  predicate AsAsked(filed: Cancellation, b: Booking, user: User, initiator: Initiator, category: string, reason: string, key: Option<string>, d: Draw) {
    && filed.facts.initiator == initiator && filed.facts.byUser == user.sub && filed.facts.category == category
    && filed.facts.byTenant == (if initiator == Admin then None else user.tenant)
    && filed.facts.reason == Trim(reason) && filed.facts.key == key && filed.facts.cancelledAt == d.now
    && filed.facts.serviceDay == b.serviceDay && filed.facts.cancelDay == d.today
    && filed.facts.daysBefore == Calendar.DateDifference(b.serviceDay, d.today)
  }

  /** A first cancellation is filed in the name and words of its caller; an operational one fixes no money. */
  lemma FiledAsAsked(s: State, a: AgentRequest, o: OperationalRequest, d: Draw)
    requires StateValid(s)
    ensures AgentTx(s, a, d).Commit? && a.booking !in s.ledger.cancellationOf ==>
              && a.booking in s.bookings && d.cancellation in AgentTx(s, a, d).value.0.ledger.cancellations
              && AsAsked(AgentTx(s, a, d).value.0.ledger.cancellations[d.cancellation], s.bookings[a.booking], a.user, Agent,
                         a.category, a.reason, Some(Trim(a.key)), d)
    ensures OperationalTx(s, o, d).Commit? && o.booking !in s.ledger.cancellationOf && o.initiator != Agent ==>
              && o.booking in s.bookings && d.cancellation in OperationalTx(s, o, d).value.0.ledger.cancellations
              && var filed := OperationalTx(s, o, d).value.0.ledger.cancellations[d.cancellation];
                 && AsAsked(filed, s.bookings[o.booking], o.user, o.initiator, o.category, o.reason, OperationalKey(o), d)
                 && filed.charge == filed.entitlement == 0 && filed.state == PendingFinancial && filed.bookingAmount == s.bookings[o.booking].amount
  {
    hide StateValid, AgentTx, OperationalTx, CalculationFor, Trim, AsAsked;
    if AgentTx(s, a, d).Commit? && a.booking !in s.ledger.cancellationOf {
      FiledAsApplied(s, a, d, AgentTx(s, a, d).value.0, AgentTx(s, a, d).value.1);
      AgentRowAsAsked(s.bookings[a.booking], a.booking, a, d);
    }
    if OperationalTx(s, o, d).Commit? && o.booking !in s.ledger.cancellationOf && o.initiator != Agent {
      FiledOperational(s, o, d, OperationalTx(s, o, d).value.0, OperationalTx(s, o, d).value.1);
      OperationalRowAsAsked(s.bookings[o.booking], o, d);
    }
  }

  lemma AgentRowAsAsked(b: Booking, id: Id, r: AgentRequest, d: Draw)
    requires CalculationFor(id, b, d.now, d.today).Eligible?
    ensures AsAsked(AgentCancellation(b, CalculationFor(id, b, d.now, d.today), r, d.now), b, r.user, Agent, r.category, r.reason, Some(Trim(r.key)), d)
  {
    hide HashOf, Charges.Charge, Charges.Refund, Calendar.DateDifference, Policy.Matches, Trim;
  }

  lemma OperationalRowAsAsked(b: Booking, r: OperationalRequest, d: Draw)
    requires r.initiator != Agent
    ensures AsAsked(OperationalCancellation(b, r, d), b, r.user, r.initiator, r.category, r.reason, OperationalKey(r), d)
    ensures var c := OperationalCancellation(b, r, d);
            c.charge == c.entitlement == 0 && c.state == PendingFinancial && c.bookingAmount == b.amount
  {
    hide HashOf, Calendar.DateDifference, Trim;
  }

  lemma FiledOperational(s: State, r: OperationalRequest, d: Draw, s': State, cid: Id)
    requires StateValid(s) && OperationalTx(s, r, d) == Commit((s', cid)) && r.booking !in s.ledger.cancellationOf
    ensures r.booking in s.bookings && d.cancellation in s'.ledger.cancellations
    ensures s'.ledger.cancellations[d.cancellation] == OperationalCancellation(s.bookings[r.booking], r, d)
  {
    hide StockValid, Owned, Linked, Mirrors, CountsTrue, LedgerValid, OperationalTx, Close, OperationalCancellation, Record, FreshCancellation;
    OperationalTxParts(s, r, d);
    var c := OperationalCancellation(s.bookings[r.booking], r, d);
    CloseParts(s, r.booking, c, d.cancellation, d.refund);
    RecordAdds(s.ledger, s.bookings[r.booking].vendor, d.cancellation, c, d.refund);
  }

  lemma RecordAdds(l: Ledger, vendor: Id, cid: Id, c: Cancellation, rid: Id)
    requires LedgerValid(l) && Record(l, vendor, cid, c, rid).Commit?
    ensures Record(l, vendor, cid, c, rid).value.0.cancellations == l.cancellations[cid := c]
  {
    hide Record, LedgerValid;
    RecordShape(l, vendor, cid, c, rid);
  }

  lemma ShownIsApplied(r: AgentRequest, b: Booking, d: Draw, now: int, today: Day)
    requires Cancellable(b.status)
    requires var c0, c1 := CalculationFor(r.booking, b, now, today), CalculationFor(r.booking, b, d.now, d.today);
             c0.Eligible? && c1.Eligible? && c0.fingerprint == c1.fingerprint
    ensures var c0, c1 := CalculationFor(r.booking, b, now, today), CalculationFor(r.booking, b, d.now, d.today);
            AsShown(c0, AgentCancellation(b, c1, r, d.now))
  {
    hide HashOf, Charges.Charge, Charges.Refund, Calendar.DateDifference, Policy.Matches, Trim, Timezone, RequestHash;
    SameFingerprintSameTerms(r.booking, b, now, today, r.booking, b, d.now, d.today);
  }

  // ---------- a confirmed refund is final ----------

  /** Once a refund is confirmed, no later call of anybody moves it again, whatever ran in between: the same reference is answered
      and changes nothing, everything else is refused. */
  lemma ConfirmedIsFinal(s: State, user: User, rid: Id, reference: string, steps: seq<Step>, later: User, other: RefundAction)
    requires StateValid(s) && RefundTx(s, user, rid, ConfirmWith(reference)).Commit? && RefundActionFor(other).Commit?
    ensures var s' := Run(RefundTx(s, user, rid, ConfirmWith(reference)).value, steps);
            RefundTx(s', later, rid, other) == match RefundActionFor(other).value
                                               case ConfirmWith(x) => if x == Trim(reference) then Commit(s') else Abort(RefundConfirmedOtherReference)
                                               case FailWith(_) => Abort(RefundNotPending)
                                               case Retry => Abort(RefundRetryRequiresFailed)
  {
    hide StateValid, Run, RefundTx, Grows, Trim;
    var t := RefundTx(s, user, rid, ConfirmWith(reference)).value;
    RefundTxKeeps(s, user, rid, ConfirmWith(reference), RefundTx(s, user, rid, ConfirmWith(reference)).value);
    RunGrows(t, steps);
    ConfirmedRow(s, user, rid, reference, RefundTx(s, user, rid, ConfirmWith(reference)).value);
    ConfirmedRowStays(t, Run(t, steps), rid);
    ConfirmedRowAnswers(Run(t, steps), later, rid, Trim(reference), other);
  }

  lemma ConfirmedRow(s: State, user: User, rid: Id, reference: string, s': State)
    requires RefundTx(s, user, rid, ConfirmWith(reference)) == Commit(s')
    ensures var l := s'.ledger;
            rid in l.refunds && l.refunds[rid].status == RefundStatus.Confirmed && l.refunds[rid].reference == Some(Trim(reference))
  {
    hide Trim, VendorOf, SettledEvent;
  }

  lemma ConfirmedRowStays(s: State, s': State, rid: Id)
    requires Grows(s, s') && rid in s.ledger.refunds && s.ledger.refunds[rid].status == RefundStatus.Confirmed
    ensures rid in s'.ledger.refunds && s'.ledger.refunds[rid] == s.ledger.refunds[rid]
  {
    hide BookingsGrow, StockGrows, FactsTrue;
  }

  lemma ConfirmedRowAnswers(s: State, user: User, rid: Id, reference: string, a: RefundAction)
    requires rid in s.ledger.refunds && s.ledger.refunds[rid].status == RefundStatus.Confirmed && s.ledger.refunds[rid].reference == Some(reference)
    requires RefundActionFor(a).Commit?
    ensures RefundTx(s, user, rid, a) == match RefundActionFor(a).value
                                         case ConfirmWith(x) => if x == reference then Commit(s) else Abort(RefundConfirmedOtherReference)
                                         case FailWith(_) => Abort(RefundNotPending)
                                         case Retry => Abort(RefundRetryRequiresFailed)
  {
    hide Trim, VendorOf, SettleRefund, RetryRefund;
    assert s.outbox + [] == s.outbox;
  }
}
