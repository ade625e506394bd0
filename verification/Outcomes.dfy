/** Exactly when the money and cancellation transactions commit, in any state a run can reach. */
module Outcomes {
  import opened Wrappers
  import opened Text
  import opened Policy
  import opened RequestFingerprint
  import opened Terms
  import opened Stock
  import opened Ledger
  import opened LedgerInvariant
  import opened LedgerReplay
  import opened Calendar
  import opened Store
  import opened Ownership
  import opened StoreInvariant
  import opened Lifecycle
  import opened Capacity
  import Charges

  type Id = string

  /** The ids the database draws have not been used. */
  predicate FreshDraw(s: State, d: Draw) {
    d.cancellation !in s.ledger.cancellations && d.refund !in s.ledger.refunds
  }

  // ---------- capacity is always there to give back ----------

  lemma OneAllocation(bs: map<Id, Booking>, k: Stock, id: Id)
    requires AllocationsOwned(bs, k) && id in bs && bs[id].recordType == Canonical && Live(bs[id].status)
    ensures |ConfirmedAllocations(k, id)| == 1
  {
    assert HasAllocation(k, id);
    var a :| a in k.allocations && k.allocations[a].booking == id && k.allocations[a].status == AllocationConfirmed;
    assert ConfirmedAllocations(k, id) == {a};
  }

  lemma OneHold(bs: map<Id, Booking>, k: Stock, id: Id)
    requires HoldsOwned(bs, k) && HasHold(k, id)
    ensures |ActiveHolds(k, id)| == 1
  {
    var h :| h in k.holds && k.holds[h].booking == id && k.holds[h].status == Active;
    assert ActiveHolds(k, id) == {h};
  }

  /** A cancellable booking gives its capacity back: the missing and ambiguous errors cannot happen. */
  lemma GivesBack(s: State, id: Id)
    requires StateValid(s) && HeldOne(s, id) && id in s.bookings && s.bookings[id].recordType == Canonical
    requires Cancellable(s.bookings[id].status)
    ensures GiveBack(s.stock, id, s.bookings[id].status).Commit?
  {
    hide MoneyValid, Linked, AllocationsOwned, HoldsOwned, CountersTrue;
    if s.bookings[id].status == BookingStatus.Confirmed {
      OneAllocation(s.bookings, s.stock, id);
    } else {
      OneHold(s.bookings, s.stock, id);
    }
  }

  lemma RecordCommits(l: Ledger, vendor: Id, cid: Id, c: Cancellation, rid: Id)
    requires Indexed(l) && vendor != "" && cid !in l.cancellations && rid !in l.refunds && c.booking !in l.cancellationOf
    requires c.state.RefundPending? ==> c.entitlement != 0
    ensures Record(l, vendor, cid, c, rid).Commit? <==> c.bookingAmount >= 0 && c.charge >= 0 && c.entitlement >= 0
    ensures Record(l, vendor, cid, c, rid).Abort? ==> Record(l, vendor, cid, c, rid).error == CheckViolation
  {
    FilingKeepsIndex(l, cid, c);
  }

  /** Without its hold a pending booking has nothing to give back. */
  lemma NothingToGiveBack(s: State, id: Id)
    requires !HeldOne(s, id)
    ensures GiveBack(s.stock, id, s.bookings[id].status) == Abort(HoldMissing)
  {
    NoHoldFound(s.stock, id);
  }

  lemma CloseCommits(s: State, id: Id, c: Cancellation, d: Draw)
    requires StateValid(s) && FreshDraw(s, d) && id in s.bookings && s.bookings[id].recordType == Canonical
    requires Cancellable(s.bookings[id].status) && c.booking == id && (c.state.RefundPending? ==> c.entitlement != 0)
    ensures var t := Close(s, id, c, d.cancellation, d.refund);
            && (t.Commit? <==> HeldOne(s, id) && c.bookingAmount >= 0 && c.charge >= 0 && c.entitlement >= 0)
            && (t.Abort? ==> t.error == if HeldOne(s, id) then CheckViolation else HoldMissing)
  {
    hide StockValid, Owned, Record, HeldOne, Mirrors, CountsTrue, AllLockstep, VersionsTold, EventsExact, Indexed;
    if HeldOne(s, id) { GivesBack(s, id); } else { NothingToGiveBack(s, id); }
    assert BookingLinked(s.bookings, s.ledger, id);
    RecordCommits(s.ledger, s.bookings[id].vendor, d.cancellation, c, d.refund);
    hide GiveBack;
  }

  // ---------- cancelling ----------

  /** On an accepted policy only two things stand in the way of a calculation. */
  lemma CalculationAnswers(id: Id, b: Booking, now: int, today: Day)
    requires b.snapshot.Some? && b.economics.Some? && Accepted(b.snapshot.value.rules)
    ensures var c := CalculationFor(id, b, now, today);
            || c == Ineligible(ServiceAlreadyStarted) || c == Ineligible(PolicyNoMatch)
            || (c.Eligible? && (c.bookingAmount >= 0 ==> c.charge >= 0 && c.refund >= 0))
    ensures var c := CalculationFor(id, b, now, today);
            b.status != BookingStatus.Confirmed ==> c.Eligible? && c.bookingAmount == b.amount && c.state == PendingFinancial
  {
    hide HashOf, Charges.Charge, Charges.Refund, DateDifference;
    AcceptedPolicyIsNeverAmbiguous(id, b, now, today);
    forall rule: Rule, amount | amount >= 0 && RuleValid(rule)
      ensures Charges.Charge(amount, rule) >= 0 && Charges.Refund(amount, rule) >= 0
    {
      Charges.SplitIsExact(amount, rule);
    }
    MatchesAreRules(b.snapshot.value.rules, DateDifference(b.serviceDay, today));
  }

  lemma {:induction false} MatchesAreRules(rules: seq<Rule>, days: int)
    requires AllValid(rules)
    ensures AllValid(Matches(rules, days))
  {
    if rules != [] {
      MatchesAreRules(rules[1..], days);
    }
  }

  /** What an agent may fail on whatever its capacity: the booking, the clock, the policy's coverage, the terms, a negative amount.
      Never an ambiguous hold or allocation or policy, never a missing allocation, never the ledger. */
  predicate AgentMayHear(e: Error) {
    e == NotFound || e == LegacyOnly || e == NotCancellable || e == ServiceAlreadyStarted || e == PolicyNoMatch
    || e == TermsChanged || e == CheckViolation
  }

  /** The agent's terms as the service would compute them now. */
  function TermsNow(s: State, r: AgentRequest, d: Draw): Calculation
    requires r.booking in s.bookings
  {
    CalculationFor(r.booking, s.bookings[r.booking], d.now, d.today)
  }

  /** The statuses a booking can be cancelled from. */
  predicate StillOpen(status: BookingStatus) {
    status == BookingStatus.Confirmed || status == PendingVendor || status == PendingManual
  }

  ghost predicate AgentMayCancel(s: State, r: AgentRequest, d: Draw)
    requires r.booking in s.bookings
  {
    && s.bookings[r.booking].recordType == Canonical && StillOpen(s.bookings[r.booking].status)
    && TermsNow(s, r, d).Eligible? && r.expected == TermsNow(s, r, d).fingerprint && TermsNow(s, r, d).bookingAmount >= 0
  }

  lemma AgentClose(s: State, r: AgentRequest, d: Draw)
    requires StateValid(s) && FreshDraw(s, d) && r.booking in s.bookings && r.booking !in s.ledger.cancellationOf
    requires s.bookings[r.booking].recordType == Canonical && Cancellable(s.bookings[r.booking].status) && TermsNow(s, r, d).Eligible?
    ensures var t := Close(s, r.booking, AgentCancellation(s.bookings[r.booking], TermsNow(s, r, d), r, d.now), d.cancellation, d.refund);
            && (t.Commit? <==> HeldOne(s, r.booking) && TermsNow(s, r, d).bookingAmount >= 0)
            && (t.Abort? ==> t.error == if HeldOne(s, r.booking) then CheckViolation else HoldMissing)
  {
    hide StockValid, Owned, MoneyValid, HeldOne, Close, CalculationFor, FreshDraw;
    var b := s.bookings[r.booking];
    var c := AgentCancellation(b, TermsNow(s, r, d), r, d.now);
    assert BookingLinked(s.bookings, s.ledger, r.booking);
    CalculationIsFresh(s, r.booking, r, d);
    CalculationAnswers(r.booking, b, d.now, d.today);
    CloseCommits(s, r.booking, c, d);
  }

  lemma AgentTermsKnown(s: State, r: AgentRequest, d: Draw)
    requires StateValid(s) && r.booking in s.bookings && s.bookings[r.booking].recordType == Canonical
    ensures TermsNow(s, r, d).Eligible? || TermsNow(s, r, d) == Ineligible(ServiceAlreadyStarted) || TermsNow(s, r, d) == Ineligible(PolicyNoMatch)
  {
    hide StockValid, Owned, MoneyValid, CalculationFor;
    assert BookingLinked(s.bookings, s.ledger, r.booking);
    CalculationAnswers(r.booking, s.bookings[r.booking], d.now, d.today);
  }

  /** The agent's transaction commits exactly when the booking is the agent's and is either cancelled already or held and
      cancellable on the very terms the agent expects. The one capacity error left is the missing hold, and only of this booking. */
  lemma AgentTxCommitsExactly(s: State, r: AgentRequest, d: Draw)
    requires StateValid(s) && FreshDraw(s, d)
    ensures AgentTx(s, r, d).Commit? <==>
              && r.booking in s.bookings && Some(s.bookings[r.booking].agent) == r.user.tenant
              && (r.booking in s.ledger.cancellationOf || (AgentMayCancel(s, r, d) && HeldOne(s, r.booking)))
    ensures AgentTx(s, r, d).Abort? ==>
              AgentMayHear(AgentTx(s, r, d).error) || (AgentTx(s, r, d).error == HoldMissing && !HeldOne(s, r.booking))
  {
    hide StateValid, HeldOne, FreshDraw, Close, CalculationFor, AgentCancellation;
    if r.booking in s.bookings && r.booking !in s.ledger.cancellationOf && s.bookings[r.booking].recordType == Canonical {
      AgentTermsKnown(s, r, d);
      if Cancellable(s.bookings[r.booking].status) && TermsNow(s, r, d).Eligible? {
        AgentClose(s, r, d);
      }
    }
  }

  predicate OperationMayHear(e: Error) {
    e == NotFound || e == LegacyOnly || e == NotCancellable || e == CheckViolation
  }

  lemma OperationalClose(s: State, r: OperationalRequest, d: Draw)
    requires StateValid(s) && FreshDraw(s, d) && r.booking in s.bookings
    requires s.bookings[r.booking].recordType == Canonical && Cancellable(s.bookings[r.booking].status)
    ensures var t := Close(s, r.booking, OperationalCancellation(s.bookings[r.booking], r, d), d.cancellation, d.refund);
            && (t.Commit? <==> HeldOne(s, r.booking) && s.bookings[r.booking].amount >= 0)
            && (t.Abort? ==> t.error == if HeldOne(s, r.booking) then CheckViolation else HoldMissing)
  {
    hide StateValid, HeldOne, FreshDraw, Close, RequestHash, Trim;
    CloseCommits(s, r.booking, OperationalCancellation(s.bookings[r.booking], r, d), d);
  }

  /** A vendor or administrator needs no terms: the booking only has to be canonical, cancellable and held. */
  lemma OperationalTxCommitsExactly(s: State, r: OperationalRequest, d: Draw)
    requires StateValid(s) && FreshDraw(s, d)
    ensures OperationalTx(s, r, d).Commit? <==>
              && r.booking in s.bookings && (r.initiator == Vendor ==> r.user.tenant == Some(s.bookings[r.booking].vendor))
              && s.bookings[r.booking].recordType == Canonical
              && (r.booking in s.ledger.cancellationOf
                  || (StillOpen(s.bookings[r.booking].status) && HeldOne(s, r.booking) && s.bookings[r.booking].amount >= 0))
    ensures OperationalTx(s, r, d).Abort? ==>
              OperationMayHear(OperationalTx(s, r, d).error) || (OperationalTx(s, r, d).error == HoldMissing && !HeldOne(s, r.booking))
  {
    hide StateValid, HeldOne, FreshDraw, Close, OperationalCancellation;
    if r.booking in s.bookings && s.bookings[r.booking].recordType == Canonical && Cancellable(s.bookings[r.booking].status) {
      OperationalClose(s, r, d);
    }
  }

  // ---------- confirming ----------

  lemma HeldConverts(s: State, id: Id, clock: int, allocation: Id, site: Site)
    requires StateValid(s) && HeldOne(s, id) && allocation !in s.stock.allocations
    requires id in s.bookings && s.bookings[id].recordType == Canonical && IsPending(s.bookings[id].status)
    ensures FindActive(s.stock, id).Some? && s.bookings[id].dueAt.Some?
    ensures var t := ConvertHold(s.stock, FindActive(s.stock, id).value, allocation, clock, site);
            && (t.Commit? <==> clock < s.bookings[id].dueAt.value && site.reviewed && site.open && site.ready)
            && (t.Abort? ==> t.error == Error.ConfirmationExpired || t.error == InventoryUnavailable)
  {
    hide MoneyValid, Linked, AllocationsOwned, CountersTrue;
    FoundIsActive(s.stock, id);
    var h := FindActive(s.stock, id).value;
    assert HoldOwned(s.bookings, s.stock.holds[h]);
  }

  lemma VendorNamed(s: State, id: Id)
    requires StateValid(s) && id in s.bookings && s.bookings[id].recordType == Canonical
    ensures s.bookings[id].vendor != ""
  {
    hide StockValid, Owned, MoneyValid;
    assert BookingLinked(s.bookings, s.ledger, id);
  }

  lemma ExpiryGoes(s: State, id: Id)
    requires StateValid(s) && id in s.bookings
    ensures ExpireLocked(s, id).Commit?
  {
    hide Owned, MoneyValid, Linked, CountersTrue;
    FoundIsActive(s.stock, id);
  }

  predicate DeciderMayHear(e: Error) {
    e == NotFound || e == WrongStatus || e == Error.ConfirmationExpired || e == InventoryUnavailable
  }

  /** A confirmation in time succeeds exactly when the booking is held and the slot is still open: the hold lives as long as the
      deadline. After the deadline the same call expires the booking instead, and always succeeds. */
  lemma ConfirmTxCommitsExactly(s: State, id: Id, decider: Decider, now: int, clock: int, allocation: Id, site: Site)
    requires StateValid(s) && allocation !in s.stock.allocations
    ensures ConfirmTx(s, id, decider, now, clock, allocation, site).Commit? <==>
              && id in s.bookings && s.bookings[id].recordType == Canonical
              && (match decider
                  case ByVendor(tenant) => s.bookings[id].vendor == tenant && s.bookings[id].status == PendingVendor
                  case ByAdmin => s.bookings[id].status == PendingManual)
              && (s.bookings[id].dueAt.None? || now >= s.bookings[id].dueAt.value
                  || (HeldOne(s, id) && clock < s.bookings[id].dueAt.value && site.reviewed && site.open && site.ready))
    ensures var t := ConfirmTx(s, id, decider, now, clock, allocation, site);
            t.Abort? ==> DeciderMayHear(t.error) || (t.error == HoldMissing && !HeldOne(s, id))
  {
    hide StateValid, ExpireLocked, FindActive, HasHold;
    if id in s.bookings && MayDecide(decider, s.bookings[id]) {
      if Overdue(s.bookings[id], now) {
        ExpiryGoes(s, id);
      } else if HeldOne(s, id) {
        HeldConverts(s, id, clock, allocation, site);
        VendorNamed(s, id);
      } else {
        NoHoldFound(s.stock, id);
      }
    }
  }

  // ---------- money ----------

  lemma ResolveCommits(l: Ledger, vendor: Id, cid: Id, charge: int, refund: int, reason: string, rid: Id, user: Id)
    requires LedgerValid(l) && rid !in l.refunds && (cid in l.cancellations ==> vendor != "")
    ensures var t := Resolve(l, vendor, cid, charge, refund, reason, rid, user);
            && (t.Commit? <==> cid in l.cancellations && l.cancellations[cid].state == PendingFinancial && charge >= 0 && refund >= 0
                               && charge + refund == l.cancellations[cid].bookingAmount)
            && (t.Abort? ==> t.error in [NotFound, FinancialStateNotPending, AmountNegative, ChargeExceedsAmount, RefundExceedsAmount, TotalMismatch])
  {
    hide KeysExact, EventsTrue, VersionsTold;
    if cid in l.cancellations {
      assert Lockstep(l, cid);
    }
  }

  lemma VendorKnown(s: State, cid: Id)
    requires StateValid(s) && cid in s.ledger.cancellations
    ensures VendorOf(s, s.ledger.cancellations[cid].booking) != ""
  {
    hide StockValid, Owned, Mirrors, CountsTrue, AllLockstep, VersionsTold, EventsExact;
    assert BookingLinked(s.bookings, s.ledger, s.ledger.cancellations[cid].booking);
  }

  /** Finance resolves a pending cancellation exactly when the two amounts parse and add up to the booking amount. */
  lemma ResolveTxCommitsExactly(s: State, r: ResolutionRequest, rid: Id)
    requires StateValid(s) && rid !in s.ledger.refunds
    ensures ResolveTx(s, r, rid).Commit? <==>
              var charge, refund := ParseMoney(r.charge), ParseMoney(r.refund);
              && Trim(r.reason) != "" && charge.Some? && refund.Some?
              && r.cancellation in s.ledger.cancellations && s.ledger.cancellations[r.cancellation].state == PendingFinancial
              && charge.value + refund.value == s.ledger.cancellations[r.cancellation].bookingAmount
    ensures ResolveTx(s, r, rid) != Abort(FinancialStateAlreadyResolved)
    ensures ResolveTx(s, r, rid) != Abort(VendorTenantMissing) && ResolveTx(s, r, rid) != Abort(RefundAmountNotPositive)
  {
    hide StockValid, Owned, Mirrors, CountsTrue, Linked, LedgerValid, Resolve, ParseMoney, Trim, VendorOf;
    if r.cancellation in s.ledger.cancellations && ParseMoney(r.charge).Some? && ParseMoney(r.refund).Some? {
      VendorKnown(s, r.cancellation);
      ResolveCommits(s.ledger, VendorOf(s, s.ledger.cancellations[r.cancellation].booking), r.cancellation,
                     ParseMoney(r.charge).value, ParseMoney(r.refund).value, Trim(r.reason), rid, r.user.sub);
    }
  }

  /** The transitions that are answered: the ones that change something, and repeats of the outcome already reached. */
  predicate Answered(f: Refund, action: RefundAction) {
    match action
    case ConfirmWith(reference) => f.status == RefundStatus.Pending || f.reference == Some(reference)
    case FailWith(_) => f.status == RefundStatus.Pending || f.status == RefundStatus.Failed
    case Retry => f.status == RefundStatus.Failed
  }

  lemma TransitionCommits(l: Ledger, vendor: Id, rid: Id, action: RefundAction, user: Id)
    requires LedgerValid(l) && (rid in l.refunds ==> vendor != "")
    ensures var t := Transition(l, vendor, rid, action, user);
            && (t.Commit? <==> rid in l.refunds && Answered(l.refunds[rid], action))
            && (t.Abort? ==> t.error in [NotFound, RefundConfirmedOtherReference, RefundRetryRequiresFailed, RefundNotPending])
  {
    hide KeysExact, EventsTrue;
    if rid in l.refunds {
      assert VersionTold(l.refunds[rid]);
      assert l.refunds[rid].cancellation in l.refundOf;
      assert Lockstep(l, l.refunds[rid].cancellation);
    }
  }

  /** A refund transition is refused only for its own status: REFUND_RETRY_STATE_MISMATCH is never the answer. */
  lemma RefundTxCommitsExactly(s: State, user: User, rid: Id, a: RefundAction)
    requires StateValid(s)
    ensures RefundTx(s, user, rid, a).Commit? <==>
              match a
              case ConfirmWith(text) =>
                Trim(text) != "" && rid in s.ledger.refunds
                && (s.ledger.refunds[rid].status == RefundStatus.Pending || s.ledger.refunds[rid].reference == Some(Trim(text)))
              case FailWith(text) =>
                Trim(text) != "" && rid in s.ledger.refunds
                && (s.ledger.refunds[rid].status == RefundStatus.Pending || s.ledger.refunds[rid].status == RefundStatus.Failed)
              case Retry => rid in s.ledger.refunds && s.ledger.refunds[rid].status == RefundStatus.Failed
    ensures RefundTx(s, user, rid, a) != Abort(RefundRetryStateMismatch) && RefundTx(s, user, rid, a) != Abort(VendorTenantMissing)
  {
    hide StockValid, Owned, Mirrors, CountsTrue, Linked, LedgerValid, Transition, VendorOf, Trim;
    var vendor := if rid in s.ledger.refunds then VendorOf(s, s.ledger.refunds[rid].booking) else "";
    if RefundActionFor(a).Commit? {
      if rid in s.ledger.refunds { RefundVendorKnown(s, rid); }
      TransitionCommits(s.ledger, vendor, rid, RefundActionFor(a).value, user.sub);
    }
  }

  lemma RefundVendorKnown(s: State, rid: Id)
    requires StateValid(s) && rid in s.ledger.refunds
    ensures VendorOf(s, s.ledger.refunds[rid].booking) != ""
  {
    hide StockValid, Owned, Mirrors, CountsTrue, AllLockstep, VersionsTold, EventsExact, Linked;
    assert s.ledger.refunds[rid].cancellation in s.ledger.refundOf;
    VendorKnown(s, s.ledger.refunds[rid].cancellation);
  }
}
