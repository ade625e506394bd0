/** The amount on a booking and the amount its cancellation is split from: equal until a failover absorbs a price gap. */
module Amounts {
  import opened Wrappers
  import opened Terms
  import opened Stock
  import opened Ledger
  import opened LedgerInvariant
  import opened LedgerReplay
  import opened Store
  import opened Ownership
  import opened StoreInvariant
  import opened Runs
  import opened Lifecycle
  import opened Capacity
  import opened History
  import Calendar
  import Charges
  import Policy
  import Races
  import RequestFingerprint
  import Text
  import Theorems

  type Id = string

  ghost predicate BookingAgrees(b: Booking) {
    b.recordType == Canonical ==> b.economics.Some? && b.amount == b.economics.value.finalAmount
  }

  ghost predicate BookingsAgree(bs: map<Id, Booking>) {
    forall b :: b in bs ==> BookingAgrees(bs[b])
  }

  ghost predicate RowAgrees(bs: map<Id, Booking>, c: Cancellation) {
    c.booking in bs && c.bookingAmount == bs[c.booking].amount
  }

  ghost predicate RowsAgree(s: State) {
    forall c :: c in s.ledger.cancellations ==> RowAgrees(s.bookings, s.ledger.cancellations[c])
  }

  ghost predicate AmountsAgree(s: State) {
    BookingsAgree(s.bookings) && RowsAgree(s)
  }

  /** A failover to a dearer supplier, as seen before it runs. */
  predicate Dearer(s: State, step: Step) {
    FailsOver(s, step) && step.failover.value.economics.finalAmount > s.bookings[step.id].amount
  }

  /** A failover that goes through and whose price gap the booking does not pay. */
  ghost predicate Absorbs(s: State, step: Step) {
    Dearer(s, step) && StepTx(s, step).Commit?
  }

  // ---------- cancellations ----------

  /** Rows of the past agree because a cancelled booking never changes again. */
  lemma OldRowsAgree(s: State, s': State, c: Id)
    requires StateValid(s) && Grows(s, s') && RowsAgree(s)
    requires c in s.ledger.cancellations
    ensures c in s'.ledger.cancellations && RowAgrees(s'.bookings, s'.ledger.cancellations[c])
  {
    var id := s.ledger.cancellations[c].booking;
    CancelledFinal(s, c);
    hide StateValid, StockGrows, FactsTrue;
    assert RowAgrees(s.bookings, s.ledger.cancellations[c]);
    assert CancellationGrows(s.ledger.cancellations[c], s'.ledger.cancellations[c]);
    assert BookingGrows(s.bookings[id], s'.bookings[id]);
  }

  lemma CancelledFinal(s: State, c: Id)
    requires StateValid(s) && c in s.ledger.cancellations
    ensures var id := s.ledger.cancellations[c].booking; id in s.bookings && Final(s.bookings[id].status)
  {
    hide StockValid, Owned, Mirrors, CountsTrue, AllLockstep, VersionsTold, EventsExact, Linked;
    Races.CancelledIsCanonical(s, s.ledger.cancellations[c].booking);
  }

  lemma KeptRowsAgree(s: State, s': State)
    requires StateValid(s) && Grows(s, s') && RowsAgree(s) && s'.ledger.cancellations.Keys == s.ledger.cancellations.Keys
    ensures RowsAgree(s')
  {
    hide StateValid, Grows;
    forall c | c in s'.ledger.cancellations
      ensures RowAgrees(s'.bookings, s'.ledger.cancellations[c])
    {
      assert c in s'.ledger.cancellations.Keys;
      OldRowsAgree(s, s', c);
    }
  }

  // ---------- only cancelling files rows ----------

  lemma ResolveFilesNothing(l: Ledger, vendor: Id, cid: Id, charge: int, refund: int, reason: string, rid: Id, user: Id)
    requires LedgerValid(l) && Resolve(l, vendor, cid, charge, refund, reason, rid, user).Commit?
    ensures Resolve(l, vendor, cid, charge, refund, reason, rid, user).value.0.cancellations.Keys == l.cancellations.Keys
  {
    hide Resolve, LedgerValid, ResolvedEvents;
    ResolveShape(l, vendor, cid, charge, refund, reason, rid, user);
  }

  lemma TransitionFilesNothing(l: Ledger, vendor: Id, rid: Id, action: RefundAction, user: Id)
    requires LedgerValid(l) && Transition(l, vendor, rid, action, user).Commit?
    ensures Transition(l, vendor, rid, action, user).value.0.cancellations.Keys == l.cancellations.Keys
  {
    hide Transition, LedgerValid, SettledEvents;
    TransitionShape(l, vendor, rid, action, user);
  }

  lemma MoneyFilesNothing(s: State, step: Step)
    requires StateValid(s) && (step.FinanceResolves? || step.RefundMoves?)
    ensures Next(s, step).ledger.cancellations.Keys == s.ledger.cancellations.Keys && Next(s, step).bookings == s.bookings
  {
    hide StockValid, Owned, Linked, LedgerValid, Mirrors, CountsTrue, Resolve, Transition, VendorOf, RefundActionFor, Text.ParseMoney, RequestFingerprint.Trim;
    if StepTx(s, step).Commit? {
      match step
      case FinanceResolves(r, rid) =>
        ResolveFilesNothing(s.ledger, VendorOf(s, s.ledger.cancellations[r.cancellation].booking), r.cancellation,
                            Text.ParseMoney(r.charge).value, Text.ParseMoney(r.refund).value, RequestFingerprint.Trim(r.reason), rid, r.user.sub);
      case RefundMoves(user, rid, a) =>
        var vendor := if rid in s.ledger.refunds then VendorOf(s, s.ledger.refunds[rid].booking) else "";
        TransitionFilesNothing(s.ledger, vendor, rid, RefundActionFor(a).value, user.sub);
    }
  }

  lemma LifeFilesNothing(s: State, step: Step)
    requires step.Creates? || step.Confirms? || step.Rejects? || step.Expires? || step.Serves? || step.SetsCapacity?
    ensures Next(s, step).ledger.cancellations == s.ledger.cancellations
  {
    hide FindActive, LeaveHold, ConvertHold, PlaceHold, AllocateDirectly, AdjustCapacity, ConfirmedEvent, BookingOf, FailoverStock, FailedOverBooking,
         RequestFingerprint.Trim;
  }

  // ---------- bookings ----------

  lemma LocalAgrees(s: State, s': State, id: Id)
    requires Local(s, s', id) && BookingsAgree(s.bookings)
    ensures BookingsAgree(s'.bookings) <==> BookingAgrees(s'.bookings[id])
  {
    hide SameHoldsElsewhere;
    forall b | b in s'.bookings && b != id
      ensures BookingAgrees(s'.bookings[b])
    {
      assert BookingAgrees(s.bookings[b]);
    }
  }

  /** Of all that can happen to a booking, only a dearer failover parts its amounts. */
  lemma OutcomeAgrees(s: State, s': State, step: Step)
    requires Outcome(s, s', step) && BookingsAgree(s.bookings)
    ensures BookingsAgree(s'.bookings) <==> !Dearer(s, step)
  {
    hide SameHoldsElsewhere, CapacityTold, BookingsAgree;
    if Subject(step).Some? {
      var id := Subject(step).value;
      if id in s.bookings { AgreesAt(s.bookings, id); }
      LocalAgrees(s, s', id);
    }
  }

  lemma AgreesAt(bs: map<Id, Booking>, id: Id)
    requires BookingsAgree(bs) && id in bs
    ensures BookingAgrees(bs[id])
  {
  }

  // ---------- filing a row ----------

  lemma FiledRowsAgree(s: State, s': State, id: Id, cid: Id, c: Cancellation)
    requires StateValid(s) && Grows(s, s') && RowsAgree(s)
    requires s'.ledger.cancellations == s.ledger.cancellations[cid := c] && cid !in s.ledger.cancellations
    requires c.booking == id && id in s'.bookings && c.bookingAmount == s'.bookings[id].amount
    ensures RowsAgree(s')
  {
    hide StateValid, Grows;
    forall k | k in s'.ledger.cancellations
      ensures RowAgrees(s'.bookings, s'.ledger.cancellations[k])
    {
      if k != cid { OldRowsAgree(s, s', k); }
    }
  }

  lemma CloseFiles(s: State, id: Id, c: Cancellation, d: Draw, s': State)
    requires StateValid(s) && id in s.bookings && Close(s, id, c, d.cancellation, d.refund) == Commit(s')
    ensures && d.cancellation !in s.ledger.cancellations && s'.ledger.cancellations == s.ledger.cancellations[d.cancellation := c]
            && id in s'.bookings && s'.bookings[id] == Moved(s.bookings[id], BookingStatus.Cancelled)
  {
    hide StockValid, Owned, Linked, Mirrors, CountsTrue, LedgerValid, Record, GiveBack, Close;
    CloseParts(s, id, c, d.cancellation, d.refund);
    RecordShape(s.ledger, s.bookings[id].vendor, d.cancellation, c, d.refund);
    hide RecordedEvents;
  }

  /** The calculation takes its amount from the economics, a withdrawal from the booking: the same once they agree. */
  lemma CalculationAmount(id: Id, b: Booking, now: int, today: Day)
    requires BookingAgrees(b) && b.recordType == Canonical && CalculationFor(id, b, now, today).Eligible?
    ensures CalculationFor(id, b, now, today).bookingAmount == b.amount
  {
    hide HashOf, Charges.Charge, Charges.Refund, Calendar.DateDifference, Policy.Matches;
  }

  lemma AgentRowsAgree(s: State, r: AgentRequest, d: Draw, s': State, cid: Id)
    requires StateValid(s) && AmountsAgree(s) && AgentTx(s, r, d) == Commit((s', cid)) && Grows(s, s')
    ensures RowsAgree(s')
  {
    hide StateValid, AgentTx, Close, CalculationFor, Grows, RowsAgree, BookingAgrees;
    AgentTxParts(s, r, d);
    if r.booking !in s.ledger.cancellationOf {
      var b := s.bookings[r.booking];
      var c := CalculationFor(r.booking, b, d.now, d.today);
      assert BookingAgrees(b);
      CalculationAmount(r.booking, b, d.now, d.today);
      CloseFiles(s, r.booking, AgentCancellation(b, c, r, d.now), d, Close(s, r.booking, AgentCancellation(b, c, r, d.now), d.cancellation, d.refund).value);
      FiledRowsAgree(s, s', r.booking, d.cancellation, AgentCancellation(b, c, r, d.now));
    }
  }

  lemma OperationalRowsAgree(s: State, r: OperationalRequest, d: Draw, s': State, cid: Id)
    requires StateValid(s) && RowsAgree(s) && OperationalTx(s, r, d) == Commit((s', cid)) && Grows(s, s')
    ensures RowsAgree(s')
  {
    hide StateValid, OperationalTx, Close, Grows, RowsAgree;
    OperationalTxParts(s, r, d);
    if r.booking !in s.ledger.cancellationOf {
      var c := OperationalCancellation(s.bookings[r.booking], r, d);
      CloseFiles(s, r.booking, c, d, Close(s, r.booking, c, d.cancellation, d.refund).value);
      FiledRowsAgree(s, s', r.booking, d.cancellation, c);
    }
  }

  /** Whatever happens, a cancellation keeps the amount its booking has. */
  lemma StepRows(s: State, step: Step)
    requires StateValid(s) && AmountsAgree(s)
    ensures RowsAgree(Next(s, step))
  {
    hide StateValid, Grows, RowsAgree, BookingsAgree, AgentTx, OperationalTx, CreateTx, ConfirmTx, RejectTx, ResolveTx, RefundTx, ServeTx, ExpireTx, CapacityTx;
    StepGrows(s, step);
    if StepTx(s, step).Commit? {
      match step
      case AgentCancels(r, d) => AgentRowsAgree(s, r, d, AgentTx(s, r, d).value.0, AgentTx(s, r, d).value.1);
      case OperationCancels(r, d) => OperationalRowsAgree(s, r, d, OperationalTx(s, r, d).value.0, OperationalTx(s, r, d).value.1);
      case FinanceResolves(_, _) => MoneyFilesNothing(s, step); KeptRowsAgree(s, Next(s, step));
      case RefundMoves(_, _, _) => MoneyFilesNothing(s, step); KeptRowsAgree(s, Next(s, step));
      case _ => LifeFilesNothing(s, step); KeptRowsAgree(s, Next(s, step));
    }
  }

  /** A step leaves every booking and cancellation with its one amount unless, and only unless, a failover absorbs a gap. */
  lemma StepAmounts(s: State, step: Step)
    requires StateValid(s) && AmountsAgree(s)
    ensures AmountsAgree(Next(s, step)) <==> !Absorbs(s, step)
  {
    hide StateValid, Next, RowsAgree, BookingsAgree, StepTx, Outcome, FailsOver;
    StepRows(s, step);
    StepOutcome(s, step);
    if Next(s, step) != s { OutcomeAgrees(s, Next(s, step), step); }
    if Absorbs(s, step) { KeptIsNoFailover(s, step); }
  }

  // ---------- over a run ----------

  ghost predicate NeverAbsorbs(s: State, steps: seq<Step>) {
    forall i :: 0 <= i < |steps| ==> !Absorbs(Run(s, steps[..i]), steps[i])
  }

  ghost predicate AmountsAlwaysAgree(s: State, steps: seq<Step>) {
    forall i :: 0 <= i <= |steps| ==> AmountsAgree(Run(s, steps[..i]))
  }

  lemma {:induction false} AgreeUpTo(s: State, steps: seq<Step>, n: nat)
    requires StateValid(s) && AmountsAgree(s) && n <= |steps|
    requires forall i :: 0 <= i < n ==> !Absorbs(Run(s, steps[..i]), steps[i])
    ensures AmountsAgree(Run(s, steps[..n]))
    decreases n
  {
    hide StateValid, AmountsAgree, Absorbs, Next, Run;
    if n > 0 {
      AgreeUpTo(s, steps, n - 1);
      RunKeeps(s, steps[..n - 1]);
      StepAmounts(Run(s, steps[..n - 1]), steps[n - 1]);
      RunExtends(s, steps, n - 1);
    } else {
      NoSteps(s, steps);
    }
  }

  /** Over a whole run every booking and its cancellation have one amount at all times exactly when no failover absorbs a gap. */
  lemma RunAmounts(s: State, steps: seq<Step>)
    requires StateValid(s) && AmountsAgree(s)
    ensures AmountsAlwaysAgree(s, steps) <==> NeverAbsorbs(s, steps)
  {
    hide StateValid, AmountsAgree, Absorbs, Next, Run;
    if NeverAbsorbs(s, steps) {
      forall n | 0 <= n <= |steps|
        ensures AmountsAgree(Run(s, steps[..n]))
      {
        AgreeUpTo(s, steps, n);
      }
    }
    if AmountsAlwaysAgree(s, steps) {
      forall i | 0 <= i < |steps|
        ensures !Absorbs(Run(s, steps[..i]), steps[i])
      {
        RunKeeps(s, steps[..i]);
        RunExtends(s, steps, i);
        assert AmountsAgree(Run(s, steps[..i + 1]));
        StepAmounts(Run(s, steps[..i]), steps[i]);
      }
    }
  }

  // ---------- what is refunded ----------

  /** The rule a confirmed booking would be charged by. */
  function RuleOn(b: Booking, today: Day): Option<Policy.Rule>
    requires b.snapshot.Some?
  {
    var found := Policy.Matches(b.snapshot.value.rules, Calendar.DateDifference(b.serviceDay, today));
    if |found| == 1 then Some(found[0]) else None
  }

  /** A booking whose cancellation would refund more than its own amount, as its record and policy tell before anybody calls: it is
      confirmed, its economics are dearer than its amount, and the rule of the day charges less than that gap. */
  predicate OverRefunds(b: Booking, today: Day) {
    && b.status == BookingStatus.Confirmed && b.snapshot.Some? && b.economics.Some? && RuleOn(b, today).Some?
    && Charges.Charge(b.economics.value.finalAmount, RuleOn(b, today).value) < b.economics.value.finalAmount - b.amount
  }

  lemma CalculationOverRefunds(id: Id, b: Booking, now: int, today: Day)
    requires Cancellable(b.status) && CalculationFor(id, b, now, today).Eligible? && CalculationFor(id, b, now, today).bookingAmount >= 0
    ensures CalculationFor(id, b, now, today).refund > b.amount <==> OverRefunds(b, today)
  {
    if b.status == BookingStatus.Confirmed {
      CalculationSplits(id, b, now, today);
    }
    hide HashOf, Charges.Charge, Charges.Refund, Calendar.DateDifference, Policy.Matches;
  }

  /** The database takes no row with a negative amount. */
  lemma RecordedAmount(l: Ledger, vendor: Id, cid: Id, c: Cancellation, rid: Id)
    requires Record(l, vendor, cid, c, rid).Commit?
    ensures c.bookingAmount >= 0
  {
    hide Post, OpenRefund;
  }

  lemma AppliedAmount(s: State, r: AgentRequest, d: Draw)
    requires AgentTx(s, r, d).Commit? && r.booking !in s.ledger.cancellationOf
    ensures r.booking in s.bookings
    ensures var c := CalculationFor(r.booking, s.bookings[r.booking], d.now, d.today); c.Eligible? && c.bookingAmount >= 0
  {
    hide AgentTx, Close, CalculationFor, Record, GiveBack;
    AgentTxParts(s, r, d);
    var b := s.bookings[r.booking];
    var c := AgentCancellation(b, CalculationFor(r.booking, b, d.now, d.today), r, d.now);
    CloseParts(s, r.booking, c, d.cancellation, d.refund);
    RecordedAmount(s.ledger, b.vendor, d.cancellation, c, d.refund);
  }

  /** In any valid store a first cancellation by the agent entitles to more than the booking's amount exactly when the booking's own
      record and policy over-refund that day. */
  lemma RefundExceedsExactly(s: State, r: AgentRequest, d: Draw, s': State, cid: Id)
    requires StateValid(s) && AgentTx(s, r, d) == Commit((s', cid)) && r.booking !in s.ledger.cancellationOf
    ensures r.booking in s.bookings && d.cancellation in s'.ledger.cancellations
    ensures s'.ledger.cancellations[d.cancellation].entitlement > s.bookings[r.booking].amount
            <==> OverRefunds(s.bookings[r.booking], d.today)
  {
    hide StateValid, AgentTx, CalculationFor, OverRefunds, Close;
    AgentTxParts(s, r, d);
    AppliedAmount(s, r, d);
    Races.FiledAsApplied(s, r, d, s', cid);
    CalculationOverRefunds(r.booking, s.bookings[r.booking], d.now, d.today);
  }

  lemma OpeningAgrees(start: State)
    requires Initial(start)
    ensures AmountsAgree(start)
  {
  }

  /** On every run that never absorbs a gap, no cancellation of any kind entitles to more than its booking's amount. */
  lemma RefundWithinAmount(start: State, steps: seq<Step>, cid: Id)
    requires Initial(start) && NeverAbsorbs(start, steps) && cid in Run(start, steps).ledger.cancellations
    ensures var s := Run(start, steps);
            var c := s.ledger.cancellations[cid];
            c.booking in s.bookings && c.entitlement <= c.bookingAmount == s.bookings[c.booking].amount
  {
    hide Run, StateValid, Initial, BookingsAgree;
    var s := Run(start, steps);
    InitialIsValid(start);
    OpeningAgrees(start);
    AgreeUpTo(start, steps, |steps|);
    assert steps[..|steps|] == steps;
    assert RowAgrees(s.bookings, s.ledger.cancellations[cid]);
    Theorems.MoneyOnEveryRun(start, steps, cid);
  }
}
