/** Who still holds capacity: the one failure the service can run into on a legal run, and exactly when. */
module Capacity {
  import opened Wrappers
  import opened Terms
  import opened Stock
  import opened Ledger
  import opened Store
  import opened Ownership
  import opened StoreInvariant
  import opened Runs
  import opened Lifecycle
  import Calendar
  import RequestFingerprint

  type Id = string

  // ---------- every pending booking has its hold ----------

  ghost predicate HeldOne(s: State, b: Id) {
    b in s.bookings && s.bookings[b].recordType == Canonical && IsPending(s.bookings[b].status) ==> HasHold(s.stock, b)
  }

  ghost predicate Held(s: State) {
    forall b :: HeldOne(s, b)
  }

  /** The branch a rejection takes is known before it runs: a vendor, in time, with a replacement supplier at hand. */
  predicate FailsOver(s: State, step: Step) {
    && step.Rejects? && step.id in s.bookings && step.decider.ByVendor? && step.failover.Some?
    && !Overdue(s.bookings[step.id], step.now)
  }

  /** So is whether the booking has used the reference key before. */
  ghost predicate KeyUsed(s: State, step: Step) {
    FailsOver(s, step) && !FreshKey(s.stock, step.id, step.failover.value)
  }

  /** A failover under a used key that goes through. */
  ghost predicate ReusesKey(s: State, step: Step) {
    KeyUsed(s, step) && StepTx(s, step).Commit?
  }

  lemma LocalHeld(s: State, s': State, id: Id)
    requires Local(s, s', id) && Held(s)
    ensures Held(s') <==> HeldOne(s', id)
  {
    forall b | b != id
      ensures HeldOne(s', b)
    {
      assert HeldOne(s, b);
    }
  }

  lemma StillHeld(s: State, s': State)
    requires Held(s) && s'.bookings == s.bookings && s'.stock.holds == s.stock.holds
    ensures Held(s')
  {
    forall b
      ensures HeldOne(s', b)
    {
      assert HeldOne(s, b);
    }
  }

  /** A step leaves every pending booking with its hold unless, and only unless, it fails a booking over under a used key. */
  lemma StepHeld(s: State, step: Step)
    requires StateValid(s) && Held(s)
    ensures Held(Next(s, step)) <==> !ReusesKey(s, step)
  {
    hide StateValid, Held, Next, StepTx, FreshKey, HasHold, SameHoldsElsewhere, BookingOf;
    StepOutcome(s, step);
    if Next(s, step) != s {
      if Subject(step).None? { StillHeld(s, Next(s, step)); } else { LocalHeld(s, Next(s, step), Subject(step).value); }
      if step.Creates? { NewIsPending(step.booking); }
    }
    if ReusesKey(s, step) { KeptIsNoFailover(s, step); }
  }

  lemma NewIsPending(n: NewBooking)
    ensures IsPending(BookingOf(n).status) <==> n.mode != Instant
  {
  }

  /** A failover that goes through leaves nothing as it was: the version rises. */
  lemma KeptIsNoFailover(s: State, step: Step)
    requires FailsOver(s, step) && StepTx(s, step).Commit?
    ensures Next(s, step) != s
  {
    hide FindActive, FailoverStock, LeaveHold, ConvertHold, Post, RequestFingerprint.Trim, FreshKey;
  }

  ghost predicate NeverReusesKey(s: State, steps: seq<Step>) {
    forall i :: 0 <= i < |steps| ==> !ReusesKey(Run(s, steps[..i]), steps[i])
  }

  ghost predicate AlwaysHeld(s: State, steps: seq<Step>) {
    forall i :: 0 <= i <= |steps| ==> Held(Run(s, steps[..i]))
  }

  lemma RunExtends(s: State, steps: seq<Step>, i: nat)
    requires i < |steps|
    ensures Run(s, steps[..i + 1]) == Next(Run(s, steps[..i]), steps[i])
  {
    hide Next;
    var longer := steps[..i + 1];
    assert longer[..|longer| - 1] == steps[..i] && longer[|longer| - 1] == steps[i];
  }

  lemma {:induction false} HeldUpTo(s: State, steps: seq<Step>, n: nat)
    requires StateValid(s) && Held(s) && n <= |steps|
    requires forall i :: 0 <= i < n ==> !ReusesKey(Run(s, steps[..i]), steps[i])
    ensures Held(Run(s, steps[..n]))
    decreases n
  {
    hide StateValid, Held, ReusesKey, Next, Run;
    if n > 0 {
      HeldUpTo(s, steps, n - 1);
      RunKeeps(s, steps[..n - 1]);
      StepHeld(Run(s, steps[..n - 1]), steps[n - 1]);
      RunExtends(s, steps, n - 1);
    } else {
      NoSteps(s, steps);
    }
  }

  lemma NoSteps(s: State, steps: seq<Step>)
    ensures Run(s, steps[..0]) == s
  {
    assert steps[..0] == [];
  }

  /** Over a whole run every pending booking has its hold at all times exactly when no failover reuses a key. */
  lemma RunHeld(s: State, steps: seq<Step>)
    requires StateValid(s) && Held(s)
    ensures AlwaysHeld(s, steps) <==> NeverReusesKey(s, steps)
  {
    hide StateValid, Held, ReusesKey, Next, Run;
    if NeverReusesKey(s, steps) {
      forall n | 0 <= n <= |steps|
        ensures Held(Run(s, steps[..n]))
      {
        HeldUpTo(s, steps, n);
      }
    }
    if AlwaysHeld(s, steps) {
      forall i | 0 <= i < |steps|
        ensures !ReusesKey(Run(s, steps[..i]), steps[i])
      {
        RunKeeps(s, steps[..i]);
        RunExtends(s, steps, i);
        assert Held(Run(s, steps[..i + 1]));
        StepHeld(Run(s, steps[..i]), steps[i]);
      }
    }
  }

  /** Without its hold a pending booking is stuck: nobody can cancel, confirm or reject it... */
  lemma CannotCancelWithoutHold(s: State, a: AgentRequest, o: OperationalRequest, d: Draw)
    requires StateValid(s) && !HeldOne(s, a.booking) && a.booking == o.booking
    ensures OperationalTx(s, o, d) == Abort(if MayTouch(o, s.bookings[o.booking]) then HoldMissing else NotFound)
    ensures var b := s.bookings[a.booking];
            AgentTx(s, a, d) == Abort(if Some(b.agent) != a.user.tenant then NotFound
                                      else if a.expected != CalculationFor(a.booking, b, d.now, d.today).fingerprint then TermsChanged
                                      else HoldMissing)
  {
    hide StockValid, Owned, MoneyValid, HasHold, Record, OperationalCancellation, AgentCancellation, HashOf, Calendar.DateDifference;
    assert BookingLinked(s.bookings, s.ledger, a.booking);
    NoHoldFound(s.stock, a.booking);
  }

  /** ...all their attempts ending in the missing hold once everything else is right... */
  lemma CannotDecideWithoutHold(s: State, id: Id, decider: Decider, why: string, now: int, clock: int, a: Id, site: Site, f: Option<Failover>)
    requires StateValid(s) && !HeldOne(s, id) && !Overdue(s.bookings[id], now)
    ensures var b := s.bookings[id];
            var refusal := if decider.ByVendor? && b.vendor != decider.tenant then NotFound else if !MayDecide(decider, b) then WrongStatus else HoldMissing;
            && ConfirmTx(s, id, decider, now, clock, a, site) == Abort(refusal)
            && RejectTx(s, id, decider, why, now, f) == Abort(if RequestFingerprint.Trim(why) == "" then ReasonRequired else refusal)
  {
    hide StateValid, HasHold, RequestFingerprint.Trim;
    NoHoldFound(s.stock, id);
  }

  /** ...and only its deadline frees it. */
  lemma OnlyExpiryFrees(s: State, id: Id, now: int)
    requires StateValid(s) && !HeldOne(s, id) && Due(s.bookings[id], now)
    ensures Became(s, Next(s, Expires(id, now)), id, BookingStatus.ConfirmationExpired)
  {
    hide StateValid, HasHold, SameHoldsElsewhere;
    NoHoldFound(s.stock, id);
    ExpireLockedKeeps(s, id, ExpireLocked(s, id).value);
  }

  lemma NoHoldFound(k: Stock, id: Id)
    requires !HasHold(k, id)
    ensures ActiveHolds(k, id) == {} && FindActive(k, id) == None
  {
    forall h
      ensures h !in ActiveHolds(k, id)
    {
    }
  }
}
