/** Short runs from an empty store that end in what the code should not do, one for each condition stated elsewhere. */
module Witnesses {
  import opened Wrappers
  import opened Calendar
  import opened Terms
  import opened Stock
  import opened EventKeys
  import opened Store
  import opened Ownership
  import opened StoreInvariant
  import opened Runs
  import opened Lifecycle
  import opened Capacity
  import opened Races
  import opened Outcomes
  import opened Amounts
  import opened LostHold
  import Charges
  import Policy
  import RequestFingerprint
  import Text
  import Theorems

  type Id = string

  const AGENT := User("u", TravelAgent, Some("agent"))

  function Withdrawal(expected: string): AgentRequest {
    AgentRequest(AGENT, "b", "k", "c", "why", true, expected)
  }

  lemma WithdrawalAllowed(expected: string)
    ensures AgentRefusal(Withdrawal(expected)).None?
  {
    hide RequestFingerprint.Trim;
    RequestFingerprint.TrimKeepsTrimmed("k");
    RequestFingerprint.TrimKeepsTrimmed("why");
  }

  lemma ThreeSteps(first: Step, second: Step, third: Step)
    ensures Run(EMPTY, [first, second, third]) == Next(Next(Next(EMPTY, first), second), third)
  {
    hide Next;
    TwoSteps(first, second);
    var all := [first, second, third];
    assert all[..2] == [first, second] && all[..3] == all;
    RunExtends(EMPTY, all, 2);
  }

  lemma AskedRecord(day: Day)
    requires "b" in Next(EMPTY, Creates(Asked(day))).bookings
    ensures Next(EMPTY, Creates(Asked(day))).bookings["b"] == BookingOf(Asked(day))
  {
    hide AllocateDirectly, PlaceHold, Policy.Accepted, BookingOf;
  }

  /** The booking right after it was asked for. */
  lemma Requested(day: Day)
    ensures var s := Next(EMPTY, Creates(Asked(day)));
            && StateValid(s) && Waiting(s, "va", First()) && s.bookings["b"] == BookingOf(Asked(day)) && HeldOne(s, "b")
  {
    hide StateValid, HeldOne, Next, Initial, Held;
    EmptyIsHeld();
    InitialIsValid(EMPTY);
    Asking(day);
    StepKeeps(EMPTY, Creates(Asked(day)));
    AskedRecord(day);
    FirstIsHeld(Next(EMPTY, Creates(Asked(day))));
  }

  lemma FirstIsHeld(s: State)
    requires s.stock == First()
    ensures HeldOne(s, "b")
  {
    assert First().holds["h1"].booking == "b";
  }

  // ---------- an instant failover to a dearer supplier ----------

  function Takeover(day: Day): Failover {
    Failover("pb", "vb", Instant, Economics(150, "INR"), TERMS, None, day, "B", 1, 60, 0, "h2", "a2", SITE)
  }

  function TakenOver(day: Day): Step {
    Rejects("b", ByVendor("va"), "full", 0, Some(Takeover(day)))
  }

  lemma TakeoverGoes(day: Day)
    ensures FindActive(First(), "b") == Some("h1")
    ensures FailoverStock(First(), "b", "h1", Takeover(day), 0).Commit?
  {
    OnlyActive(First(), "b", "h1");
    forall e
      ensures !Filed(First(), "B", FailoverReference("b", "pb"), e)
    {
    }
    var placed := Hold("B", "b", 1, 60000, FailoverReference("b", "pb"), Active);
    var k1 := First().(holds := First().holds["h2" := placed], counters := First().counters["B" := AddHeld(First().counters["B"], 1)]);
    assert PlaceHold(First(), "h2", "B", "b", 1, 60000, FailoverReference("b", "pb"), 0, SITE) == Commit((k1, "h2"));
    assert LeaveHold(k1, "h1", Released).Commit?;
    var k2 := LeaveHold(k1, "h1", Released).value;
    assert ConvertHold(k2, "h2", "a2", 0, SITE).Commit?;
  }

  function Taken(day: Day): Booking {
    FailedOverBooking(BookingOf(Asked(day)), Takeover(day), 0)
  }

  lemma TakenTells(day: Day)
    ensures var b := Taken(day); b.recordType == Canonical && b.status == BookingStatus.Confirmed && b.agent == "agent" && b.amount == 100
  {
  }

  lemma TakeoverConfirms(s: State, day: Day)
    requires StateValid(s) && Waiting(s, "va", First()) && s.bookings["b"] == BookingOf(Asked(day))
    ensures RejectTx(s, "b", ByVendor("va"), "full", 0, Some(Takeover(day))) == FailoverTx(s, "b", Takeover(day), 0)
    ensures FailoverTx(s, "b", Takeover(day), 0).Commit?
    ensures Next(s, TakenOver(day)) == FailoverTx(s, "b", Takeover(day), 0).value
    ensures "b" in Next(s, TakenOver(day)).bookings && Next(s, TakenOver(day)).bookings["b"] == Taken(day)
  {
    TakeoverGoes(day);
    TermsAccepted();
    ReasonGiven();
    hide StateValid, FailoverStock, Policy.Accepted, FindActive, RequestFingerprint.Trim;
  }

  /** The booking is confirmed, no event says so, and its amount is not the one it would be cancelled on. */
  lemma ConfirmedInSilence(day: Day)
    ensures var s := Run(EMPTY, [Creates(Asked(day)), TakenOver(day)]);
            && "b" in s.bookings && s.bookings["b"].status == BookingStatus.Confirmed && BookingConfirmedKey("b") !in s.ledger.events
            && s.bookings["b"].amount == 100 && s.bookings["b"].economics == Some(Economics(150, "INR")) && !AmountsAgree(s)
    ensures Absorbs(Run(EMPTY, [Creates(Asked(day))]), TakenOver(day))
  {
    var s1 := Next(EMPTY, Creates(Asked(day)));
    TwoSteps(Creates(Asked(day)), TakenOver(day));
    Requested(day);
    TakeoverConfirms(s1, day);
    hide Next, Run, FailoverTx, StateValid, RejectTx;
    Theorems.FailoverConfirmsSilently(s1, "b", Takeover(day), 0, FailoverTx(s1, "b", Takeover(day), 0).value);
    assert !BookingAgrees(Taken(day));
    TakeoverAbsorbs(s1, day);
  }

  lemma TakeoverAbsorbs(s: State, day: Day)
    requires Waiting(s, "va", First()) && s.bookings["b"] == BookingOf(Asked(day))
    requires RejectTx(s, "b", ByVendor("va"), "full", 0, Some(Takeover(day))).Commit?
    ensures Absorbs(s, TakenOver(day))
  {
    hide RejectTx;
  }

  // ---------- a refund beyond the amount ----------

  function Cancelling(day: Day): Step {
    AgentCancels(Withdrawal(CalculationFor("b", Taken(day), 0, day).fingerprint), Draw(0, day, "c", "r"))
  }

  lemma TakenOverRefunds(day: Day)
    ensures var c := CalculationFor("b", Taken(day), 0, day);
            c.Eligible? && c.bookingAmount == 150 && c.charge == 0 && c.refund == 150
  {
    DifferenceIsExact(day, day);
    assert Policy.Matches(TERMS.rules, 0) == TERMS.rules by { assert TERMS.rules[1..] == []; }
    FreeOfCharge();
    hide HashOf, Charges.Charge, Charges.Refund;
  }

  lemma FreeOfCharge()
    ensures Charges.Charge(150, TERMS.rules[0]) == 0 && Charges.Refund(150, TERMS.rules[0]) == 150
  {
    NothingIsZero();
    hide Text.DecimalValue;
  }

  lemma NothingIsZero()
    ensures Text.DecimalValue("0") == 0.0
  {
    assert Text.PointAt("0") == 1;
    assert "0"[..1] == "0";
  }

  /** Asked for at 100, taken over at 150 for nothing more to pay, cancelled free of charge: 150 are owed back. */
  lemma RefundBeyondAmount(day: Day)
    ensures var s := Run(EMPTY, [Creates(Asked(day)), TakenOver(day), Cancelling(day)]);
            && "c" in s.ledger.cancellations && "b" in s.bookings
            && s.ledger.cancellations["c"].entitlement == 150 && s.bookings["b"].amount == 100
  {
    var s1 := Next(EMPTY, Creates(Asked(day)));
    var s2 := Next(s1, TakenOver(day));
    ThreeSteps(Creates(Asked(day)), TakenOver(day), Cancelling(day));
    Requested(day);
    TakeoverConfirms(s1, day);
    hide Next, Run, FailoverTx, StateValid, RejectTx, FailoverStock, Waiting;
    StepKeeps(s1, TakenOver(day));
    TakenOverRefunds(day);
    NobodyCancelled(s1, day, FailoverTx(s1, "b", Takeover(day), 0).value);
    TakenTells(day);
    hide EMPTY;
    CancelsInFull(s2, Taken(day), Withdrawal(CalculationFor("b", Taken(day), 0, day).fingerprint), Draw(0, day, "c", "r"));
  }

  lemma NobodyCancelled(s: State, day: Day, s': State)
    requires Waiting(s, "va", First()) && FailoverTx(s, "b", Takeover(day), 0) == Commit(s')
    ensures s'.ledger == EMPTY.ledger
  {
    hide FailoverStock, FindActive;
  }

  /** A booking of this agent, held and cancellable, is cancelled on the terms it would be cancelled on. */
  lemma CancelsOnItsTerms(s: State, r: AgentRequest, d: Draw)
    requires StateValid(s) && s.ledger == EMPTY.ledger && HeldOne(s, "b") && r == Withdrawal(r.expected)
    requires "b" in s.bookings && s.bookings["b"].recordType == Canonical && Cancellable(s.bookings["b"].status) && s.bookings["b"].agent == "agent"
    requires var c := CalculationFor("b", s.bookings["b"], d.now, d.today);
             c.Eligible? && c.bookingAmount >= 0 && c.fingerprint == r.expected
    ensures AgentTx(s, r, d).Commit? && Next(s, AgentCancels(r, d)) == AgentTx(s, r, d).value.0
    ensures r.booking !in s.ledger.cancellationOf
  {
    hide StateValid, AgentTx, AgentRefusal, CalculationFor, HeldOne;
    WithdrawalAllowed(r.expected);
    AgentTxCommitsExactly(s, r, d);
  }

  /** Cancelled for a full refund, the booking keeps its amount. */
  lemma CancelsInFull(s: State, b: Booking, r: AgentRequest, d: Draw)
    requires StateValid(s) && s.ledger == EMPTY.ledger && "b" in s.bookings && s.bookings["b"] == b && r == Withdrawal(r.expected) && d.now == 0
    requires b.recordType == Canonical && b.status == BookingStatus.Confirmed && b.agent == "agent"
    requires var c := CalculationFor("b", b, d.now, d.today);
             c.Eligible? && c.bookingAmount >= 0 && c.fingerprint == r.expected && c.refund == 150
    ensures var s' := Next(s, AgentCancels(r, d));
            && d.cancellation in s'.ledger.cancellations && "b" in s'.bookings
            && s'.ledger.cancellations[d.cancellation].entitlement == 150 && s'.bookings["b"].amount == b.amount
  {
    hide StateValid, AgentTx, CalculationFor, HeldOne, AgentCancellation, Outcome, Next, EMPTY, AgentRefusal;
    ConfirmedNeedsNoHold(s);
    CancelsOnItsTerms(s, r, d);
    FiledAsApplied(s, r, d, AgentTx(s, r, d).value.0, AgentTx(s, r, d).value.1);
    WithdrawalAllowed(r.expected);
    AgentOutcome(s, r, d);
    AgentCancellationTells(b, CalculationFor("b", b, d.now, d.today), r);
    CancelledKeepsAmount(s, Next(s, AgentCancels(r, d)), r, d);
  }

  lemma ConfirmedNeedsNoHold(s: State)
    requires "b" in s.bookings ==> s.bookings["b"].status == BookingStatus.Confirmed
    ensures HeldOne(s, "b")
  {
  }

  lemma AgentCancellationTells(b: Booking, c: Calculation, r: AgentRequest)
    requires c.Eligible?
    ensures AgentCancellation(b, c, r, 0).entitlement == c.refund && AgentCancellation(b, c, r, 0).booking == r.booking
  {
    hide RequestFingerprint.Trim, HashOf;
  }

  lemma CancelledKeepsAmount(s: State, s': State, r: AgentRequest, d: Draw)
    requires r.booking == "b" && "b" in s.bookings && (s' == s || Outcome(s, s', AgentCancels(r, d)))
    ensures "b" in s'.bookings && s'.bookings["b"].amount == s.bookings["b"].amount
  {
    hide SameHoldsElsewhere;
  }

  // ---------- a withdrawal a day after its preview ----------

  /** The withdrawal's fingerprint is the same whatever the day, the days before service are not. */
  lemma WithdrawalTerms(day: Day, on: Day, later: Day)
    ensures var c, c' := CalculationFor("b", BookingOf(Asked(day)), 0, on), CalculationFor("b", BookingOf(Asked(day)), 0, later);
            && c.Eligible? && c'.Eligible? && c'.bookingAmount == 100 && c.fingerprint == c'.fingerprint
            && c.daysBefore == DateDifference(day, on) && c'.daysBefore == DateDifference(day, later)
  {
    hide HashOf, DateDifference;
  }

  lemma AgentCancellationCounts(b: Booking, c: Calculation, r: AgentRequest)
    requires c.Eligible?
    ensures AgentCancellation(b, c, r, 0).facts.daysBefore == c.daysBefore
  {
    hide RequestFingerprint.Trim, HashOf;
  }

  /** What the agent is shown. */
  function Previewed(day: Day, shown: Day): (c: Calculation)
    ensures c.Eligible?
  {
    CalculationFor("b", BookingOf(Asked(day)), 0, shown)
  }

  /** Previewed on one day and accepted on the next, the withdrawal is filed with one day less than was shown. */
  lemma FiledOneDayShort(day: Day, shown: Day)
    ensures var s := Run(EMPTY, [Creates(Asked(day))]);
            "b" in s.bookings && Previewed(day, shown) == CalculationFor("b", s.bookings["b"], 0, shown)
    ensures var c := Previewed(day, shown);
            var s := Run(EMPTY, [Creates(Asked(day)), AgentCancels(Withdrawal(c.fingerprint), Draw(0, NextDay(shown), "c", "r"))]);
            "c" in s.ledger.cancellations && s.ledger.cancellations["c"].facts.daysBefore == c.daysBefore - 1
  {
    var s := Next(EMPTY, Creates(Asked(day)));
    var b := BookingOf(Asked(day));
    var r, d := Withdrawal(Previewed(day, shown).fingerprint), Draw(0, NextDay(shown), "c", "r");
    hide Next, Run, StateValid, CalculationFor, HeldOne, AgentTx, AgentCancellation, First;
    TwoSteps(Creates(Asked(day)), AgentCancels(r, d));
    Requested(day);
    WithdrawalTerms(day, shown, d.today);
    DifferenceIsExact(day, shown);
    DifferenceIsExact(day, d.today);
    NextDayNumber(shown);
    CancelsOnItsTerms(s, r, d);
    FiledAsApplied(s, r, d, AgentTx(s, r, d).value.0, AgentTx(s, r, d).value.1);
    AgentCancellationCounts(b, CalculationFor("b", b, 0, d.today), r);
  }
}
