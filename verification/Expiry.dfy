/** The confirmation-expiry sweep: a list read once, then one locked transaction per booking while everybody else goes on. */
module Expiry {
  import opened Wrappers
  import opened Terms
  import opened Stock
  import opened Ledger
  import opened Store
  import opened Ownership
  import opened StoreInvariant
  import opened Runs
  import opened Lifecycle
  import opened Capacity
  import opened History
  import opened CancellationService

  type Id = string

  /** The query of the sweep: each canonical pending booking whose deadline has passed, once. */
  ghost predicate DueList(s: State, due: seq<Id>, now: int) {
    && (forall id :: id in due <==> Swept(s, id) && Due(s.bookings[id], now))
    && (forall i, j :: 0 <= i < j < |due| ==> due[i] != due[j])
  }

  /** What the database makes of one transaction: it commits, it fails before the booking is noted as expired, or it fails at its
      commit, after the booking was noted. */
  datatype Fate = Commits | FailsInside | FailsAtCommit

  /** One sweep: the list it read, what others did before each of its locks, and what became of its transactions. */
  datatype Sweep = Sweep(due: seq<Id>, now: int, others: seq<seq<Step>>, fates: seq<Fate>) {

    predicate WellFormed() {
      |others| == |due| && |fates| == |due|
    }

    /** The booking whose turn is the i-th, what others did before its lock, and the fate of its transaction. */

    function At(i: int): Id {
      if 0 <= i < |due| then due[i] else ""
    }

    function Before(i: int): seq<Step> {
      if 0 <= i < |others| then others[i] else []
    }

    function FateOf(i: int): Fate {
      if 0 <= i < |fates| then fates[i] else FailsInside
    }

    predicate Fails(i: int) {
      FateOf(i) != Commits
    }
  }

  /** The store after the first i bookings of the list have had their turn. */
  ghost function After(start: State, w: Sweep, i: int): State
    decreases i, 0
  {
    if i <= 0 then start
    else if w.Fails(i - 1) then Found(start, w, i - 1)
    else
      var t := ExpireTx(Found(start, w, i - 1), w.At(i - 1), w.now);
      if t.Commit? then t.value else Found(start, w, i - 1)
  }

  /** The store as the sweep finds it when it locks booking i. */
  ghost function Found(start: State, w: Sweep, i: int): State
    decreases i, 1
  {
    Run(After(start, w, i), w.Before(i))
  }

  /** Both pending and due. */
  predicate StillDue(s: State, id: Id, now: int) {
    id in s.bookings && Due(s.bookings[id], now)
  }

  /** Booking i was still pending and due at its own lock, and its transaction committed. */
  ghost predicate Expired(start: State, w: Sweep, i: int) {
    !w.Fails(i) && StillDue(Found(start, w, i), w.At(i), w.now)
  }

  /** Booking i is noted as expired inside its transaction, before it is known whether that commits. */
  ghost predicate Noted(start: State, w: Sweep, i: int) {
    w.FateOf(i) != FailsInside && StillDue(Found(start, w, i), w.At(i), w.now)
  }

  ghost function ReportedIds(start: State, w: Sweep, n: int): seq<Id> {
    if n <= 0 then [] else ReportedIds(start, w, n - 1) + (if Noted(start, w, n - 1) then [w.At(n - 1)] else [])
  }

  function SkippedIds(w: Sweep, n: int): seq<Id> {
    if n <= 0 then [] else SkippedIds(w, n - 1) + (if w.Fails(n - 1) then [w.At(n - 1)] else [])
  }

  // ---------- the sweep as a run ----------

  /** A locked expiry never aborts in a valid store, so only the database can make the sweep skip a booking. */
  lemma ExpiryCommits(s: State, id: Id, now: int)
    requires StateValid(s)
    ensures ExpireTx(s, id, now).Commit?
  {
    hide Owned, MoneyValid, Linked, CountersTrue;
    FoundIsActive(s.stock, id);
  }

  lemma {:induction false} SweepKeeps(start: State, w: Sweep, i: nat)
    requires StateValid(start) && DueList(start, w.due, w.now) && i <= |w.due|
    ensures StateValid(After(start, w, i)) && Grows(start, After(start, w, i))
    ensures i < |w.due| ==> StateValid(Found(start, w, i)) && Grows(start, Found(start, w, i))
    decreases i
  {
    hide StateValid, Grows, Run, ExpireTx, Next;
    if i == 0 {
      SameGrows(start);
    } else {
      SweepKeeps(start, w, i - 1);
      OneTurn(start, w, i - 1);
    }
    if i < |w.due| {
      RunKeeps(After(start, w, i), w.Before(i));
      RunGrows(After(start, w, i), w.Before(i));
      GrowsOn(start, After(start, w, i), Found(start, w, i));
    }
  }

  lemma ListedIsSwept(start: State, w: Sweep, i: nat, s: State)
    requires DueList(start, w.due, w.now) && i < |w.due| && Grows(start, s)
    ensures Swept(s, w.At(i))
  {
    hide StockGrows, LedgerGrows;
    assert w.At(i) in w.due;
  }

  /** One turn of the sweep, seen as a step. */
  lemma OneTurn(start: State, w: Sweep, i: nat)
    requires i < |w.due| && DueList(start, w.due, w.now)
    requires StateValid(Found(start, w, i)) && Grows(start, Found(start, w, i))
    ensures After(start, w, i + 1) == if w.Fails(i) then Found(start, w, i) else Next(Found(start, w, i), Expires(w.At(i), w.now))
    ensures StateValid(After(start, w, i + 1)) && Grows(start, After(start, w, i + 1)) && Grows(Found(start, w, i), After(start, w, i + 1))
  {
    hide StateValid, Grows, Run, ExpireLocked, Found;
    var s := Found(start, w, i);
    ListedIsSwept(start, w, i, s);
    SameGrows(s);
    StepKeeps(s, Expires(w.At(i), w.now));
    StepGrows(s, Expires(w.At(i), w.now));
    hide Next, ExpireTx;
    assert After(start, w, i + 1) == if w.Fails(i) then s else Next(s, Expires(w.At(i), w.now)) by { TurnIsStep(start, w, i); }
    GrowsOn(start, s, After(start, w, i + 1));
  }

  lemma TurnIsStep(start: State, w: Sweep, i: nat)
    requires i < |w.due| && Swept(Found(start, w, i), w.At(i))
    ensures After(start, w, i + 1) == if w.Fails(i) then Found(start, w, i) else Next(Found(start, w, i), Expires(w.At(i), w.now))
  {
    hide ExpireTx, Run, Found;
  }

  lemma {:induction false} LaterGrows(start: State, w: Sweep, i: nat, n: nat)
    requires StateValid(start) && DueList(start, w.due, w.now) && i <= n <= |w.due|
    ensures Grows(After(start, w, i), After(start, w, n))
    decreases n
  {
    hide StateValid, Grows, Run, ExpireTx, Next, After;
    if i == n {
      SameGrows(After(start, w, i));
    } else {
      LaterGrows(start, w, i, n - 1);
      SweepKeeps(start, w, n - 1);
      OneTurn(start, w, n - 1);
      RunGrows(After(start, w, n - 1), w.Before(n - 1));
      FoundIsRun(start, w, n - 1);
      GrowsOn(After(start, w, n - 1), Found(start, w, n - 1), After(start, w, n));
      GrowsOn(After(start, w, i), After(start, w, n - 1), After(start, w, n));
    }
  }

  lemma FoundIsRun(start: State, w: Sweep, i: nat)
    requires i < |w.due|
    ensures Found(start, w, i) == Run(After(start, w, i), w.Before(i))
  {
    hide Run, ExpireTx;
  }

  // ---------- what a turn does ----------

  ghost predicate IsExpired(s: State, id: Id) {
    id in s.bookings && s.bookings[id].status == BookingStatus.ConfirmationExpired
  }

  lemma ExpiredStays(s: State, s': State, id: Id)
    requires Grows(s, s') && IsExpired(s, id)
    ensures IsExpired(s', id) && s'.bookings[id] == s.bookings[id]
  {
    hide StockGrows, LedgerGrows;
  }

  lemma ExpireDoes(s: State, id: Id, now: int)
    requires StateValid(s) && Swept(s, id)
    ensures if StillDue(s, id, now) then IsExpired(Next(s, Expires(id, now)), id) else Next(s, Expires(id, now)) == s
  {
    hide StateValid, FindActive, LeaveHold;
    ExpiryCommits(s, id, now);
  }

  /** A booking reported expired was pending and due at its own lock and is expired from then on; any other booking, decided,
      cancelled or failed over since the list was read, is left exactly as it was found. */
  lemma TurnIsSound(start: State, w: Sweep, i: nat)
    requires StateValid(start) && DueList(start, w.due, w.now) && i < |w.due|
    ensures Expired(start, w, i) ==> IsExpired(After(start, w, i + 1), w.At(i)) && IsExpired(After(start, w, |w.due|), w.At(i))
    ensures !Expired(start, w, i) ==> After(start, w, i + 1) == Found(start, w, i)
  {
    hide StateValid, Grows, Run, ExpireTx, Next, After, Found;
    SweepKeeps(start, w, i);
    ListedIsSwept(start, w, i, Found(start, w, i));
    OneTurn(start, w, i);
    ExpireDoes(Found(start, w, i), w.At(i), w.now);
    if Expired(start, w, i) {
      LaterGrows(start, w, i + 1, |w.due|);
      ExpiredStays(After(start, w, i + 1), After(start, w, |w.due|), w.At(i));
    }
  }

  /** The transaction notes the booking before it commits, so a noted booking is expired by its turn exactly when that turn was not
      skipped; otherwise it is reported although it is still pending and due. */
  lemma NoteIsTrueExactly(start: State, w: Sweep, i: nat)
    requires StateValid(start) && DueList(start, w.due, w.now) && i < |w.due| && Noted(start, w, i)
    ensures IsExpired(After(start, w, i + 1), w.At(i)) <==> w.At(i) !in SkippedIds(w, |w.due|)
    ensures w.At(i) in SkippedIds(w, |w.due|) ==>
              StillDue(After(start, w, i + 1), w.At(i), w.now)
  {
    hide StateValid, After, Found;
    TurnIsSound(start, w, i);
    SkippedMembers(w, |w.due|, i);
  }

  lemma {:induction false} SkippedMembers(w: Sweep, n: nat, i: nat)
    requires i < |w.due| && n <= |w.due|
    requires forall j, k :: 0 <= j < k < |w.due| ==> w.At(j) != w.At(k)
    ensures w.At(i) in SkippedIds(w, n) <==> i < n && w.Fails(i)
    decreases n
  {
    if n > 0 { SkippedMembers(w, n - 1, i); }
  }

  lemma {:induction false} ReportedMembers(start: State, w: Sweep, n: nat, id: Id)
    requires n <= |w.due|
    ensures id in ReportedIds(start, w, n) <==> exists i :: 0 <= i < n && w.At(i) == id && Noted(start, w, i)
    decreases n
  {
    hide Noted;
    if n > 0 { ReportedMembers(start, w, n - 1, id); }
  }

  // ---------- nothing due is left behind ----------

  /** The clock a failover reads has reached the sweep's time. */
  predicate Timely(step: Step, now: int) {
    step.Rejects? && step.failover.Some? ==> step.failover.value.clock >= now
  }

  /** Neither pending nor due any more. */
  predicate Undue(s: State, id: Id, now: int) {
    id in s.bookings && !Due(s.bookings[id], now)
  }

  lemma NewDeadlineIsAhead(s: State, id: Id, f: Failover, now: int)
    requires id in s.bookings && FailoverTx(s, id, f, now).Commit? && f.mode != Instant
    ensures FailoverDue(f, now).value > f.clock
  {
    hide LeaveHold, ConvertHold;
  }

  /** A failover whose new deadline the sweep's time has already passed, as seen before it runs. */
  predicate Backdates(s: State, step: Step, id: Id, now: int) {
    && FailsOver(s, step) && step.id == id && step.failover.value.mode != Instant
    && FailoverDue(step.failover.value, step.now).value <= now
  }

  /** Such a failover, going through. */
  ghost predicate Reopens(s: State, step: Step, id: Id, now: int) {
    Backdates(s, step, id, now) && StepTx(s, step).Commit?
  }

  /** A failover whose clock has reached the sweep's time sets its deadline later still. */
  lemma TimelyNeverReopens(s: State, step: Step, id: Id, now: int)
    requires Timely(step, now)
    ensures !Reopens(s, step, id, now)
  {
    if Reopens(s, step, id, now) {
      hide RejectTx, FailoverTx, LeaveHold, ExpireLocked;
      RejectParts(s, step.id, step.decider, step.reason, step.now, step.failover);
      NewDeadlineIsAhead(s, step.id, step.failover.value, step.now);
    }
  }

  /** Of all that can happen to a booking, only such a failover makes it due. */
  lemma OutcomeUndue(s: State, s': State, step: Step, id: Id, now: int)
    requires Outcome(s, s', step) && Undue(s, id, now)
    ensures Undue(s', id, now) <==> !Backdates(s, step, id, now)
  {
    hide SameHoldsElsewhere, CapacityTold;
  }

  /** A booking that is not due at the sweep's time becomes due by a step exactly when a failover reopens it. */
  lemma StepUndue(s: State, step: Step, id: Id, now: int)
    requires StateValid(s) && Undue(s, id, now)
    ensures Undue(Next(s, step), id, now) <==> !Reopens(s, step, id, now)
  {
    hide StateValid, Next, Undue, StepTx, Outcome, FailsOver;
    StepOutcome(s, step);
    if Next(s, step) != s { OutcomeUndue(s, Next(s, step), step, id, now); }
    if Reopens(s, step, id, now) { KeptIsNoFailover(s, step); }
  }

  /** Undue from the beginning of a run to its end. */
  ghost predicate UndueThroughout(s: State, steps: seq<Step>, id: Id, now: int) {
    forall j :: 0 <= j <= |steps| ==> Undue(Run(s, steps[..j]), id, now)
  }

  ghost predicate NoneReopens(s: State, steps: seq<Step>, id: Id, now: int) {
    forall j :: 0 <= j < |steps| ==> !Reopens(Run(s, steps[..j]), steps[j], id, now)
  }

  lemma {:induction false} UndueUpTo(s: State, steps: seq<Step>, n: nat, id: Id, now: int)
    requires StateValid(s) && Undue(s, id, now) && n <= |steps| && NoneReopens(s, steps, id, now)
    ensures Undue(Run(s, steps[..n]), id, now)
    decreases n
  {
    hide StateValid, Undue, Reopens, Next, Run;
    if n > 0 {
      UndueUpTo(s, steps, n - 1, id, now);
      RunKeeps(s, steps[..n - 1]);
      StepUndue(Run(s, steps[..n - 1]), steps[n - 1], id, now);
      RunExtends(s, steps, n - 1);
    } else {
      NoSteps(s, steps);
    }
  }

  /** Over a run an undue booking stays undue exactly when no failover reopens it. */
  lemma RunUndue(s: State, steps: seq<Step>, id: Id, now: int)
    requires StateValid(s) && Undue(s, id, now)
    ensures UndueThroughout(s, steps, id, now) <==> NoneReopens(s, steps, id, now)
  {
    hide StateValid, Undue, Reopens, Next, Run;
    if NoneReopens(s, steps, id, now) {
      forall n | 0 <= n <= |steps|
        ensures Undue(Run(s, steps[..n]), id, now)
      {
        UndueUpTo(s, steps, n, id, now);
      }
    }
    if UndueThroughout(s, steps, id, now) {
      forall j | 0 <= j < |steps|
        ensures !Reopens(Run(s, steps[..j]), steps[j], id, now)
      {
        RunKeeps(s, steps[..j]);
        RunExtends(s, steps, j);
        assert Undue(Run(s, steps[..j + 1]), id, now);
        StepUndue(Run(s, steps[..j]), steps[j], id, now);
      }
    }
  }

  /** After its own turn booking i is undue in every state up to the n-th turn. */
  ghost predicate StaysUndue(start: State, w: Sweep, i: int, n: int)
  {
    && (forall k :: i < k <= n ==> Undue(After(start, w, k), w.At(i), w.now))
    && (forall k :: i < k < n ==> UndueThroughout(After(start, w, k), w.Before(k), w.At(i), w.now))
  }

  /** Nobody reopens booking i after its own turn; what happens to it before, and to any other booking, is free. */
  ghost predicate NeverReopened(start: State, w: Sweep, i: int, n: int)
  {
    forall k :: i < k < n ==> NoneReopens(After(start, w, k), w.Before(k), w.At(i), w.now)
  }

  lemma OwnTurnLeavesUndue(start: State, w: Sweep, i: nat)
    requires StateValid(start) && DueList(start, w.due, w.now) && i < |w.due| && !w.Fails(i)
    ensures Undue(After(start, w, i + 1), w.At(i), w.now)
  {
    hide StateValid, Grows, Run, ExpireTx, Next, After, Found, StepTx;
    SweepKeeps(start, w, i);
    TurnIsSound(start, w, i);
    ListedIsSwept(start, w, i, Found(start, w, i));
  }

  /** Another booking's turn leaves this one as undue as it found it. */
  lemma TurnKeepsUndue(start: State, w: Sweep, k: nat, id: Id)
    requires StateValid(start) && DueList(start, w.due, w.now) && k < |w.due|
    requires UndueThroughout(After(start, w, k), w.Before(k), id, w.now)
    ensures Undue(After(start, w, k + 1), id, w.now)
  {
    hide StateValid, Grows, Run, ExpireTx, Next, After, Found, StepTx, Undue;
    assert w.Before(k)[..|w.Before(k)|] == w.Before(k);
    FoundIsRun(start, w, k);
    SweepKeeps(start, w, k);
    OneTurn(start, w, k);
    StepUndue(Found(start, w, k), Expires(w.At(k), w.now), id, w.now);
  }

  lemma OneMoreTurn(start: State, w: Sweep, i: int, n: int)
    requires i < n
    ensures StaysUndue(start, w, i, n + 1)
            <==> && StaysUndue(start, w, i, n) && UndueThroughout(After(start, w, n), w.Before(n), w.At(i), w.now)
                 && Undue(After(start, w, n + 1), w.At(i), w.now)
    ensures NeverReopened(start, w, i, n + 1)
            <==> NeverReopened(start, w, i, n) && NoneReopens(After(start, w, n), w.Before(n), w.At(i), w.now)
  {
    hide After, Found, Undue, UndueThroughout, NoneReopens;
  }

  /** A turn that is not skipped leaves its booking undue, and it is undue in every later state exactly when nobody reopens it. */
  lemma {:induction false} TurnLeavesUndue(start: State, w: Sweep, i: nat, n: nat)
    requires StateValid(start) && DueList(start, w.due, w.now)
    requires i < n <= |w.due| && !w.Fails(i)
    ensures StaysUndue(start, w, i, n) <==> NeverReopened(start, w, i, n)
    decreases n
  {
    hide StateValid, After, Found, Undue, UndueThroughout, NoneReopens, DueList;
    if n == i + 1 {
      OwnTurnLeavesUndue(start, w, i);
    } else {
      var k := n - 1;
      TurnLeavesUndue(start, w, i, k);
      OneMoreTurn(start, w, i, k);
      hide StaysUndue, NeverReopened;
      if StaysUndue(start, w, i, k) {
        UndueNow(start, w, i, k);
        SweepKeeps(start, w, k);
        RunUndue(After(start, w, k), w.Before(k), w.At(i), w.now);
        if UndueThroughout(After(start, w, k), w.Before(k), w.At(i), w.now) { TurnKeepsUndue(start, w, k, w.At(i)); }
      }
    }
  }

  lemma UndueNow(start: State, w: Sweep, i: int, n: int)
    requires i < n && StaysUndue(start, w, i, n)
    ensures Undue(After(start, w, n), w.At(i), w.now)
  {
    hide After, Found, Undue, UndueThroughout;
  }

  /** Every booking that was due when the sweep began and was not skipped is no longer both pending and due after its turn, and stays so
      to the end exactly when no failover after that turn gives it a deadline the sweep's time has passed. */
  lemma NothingDueIsLeft(start: State, w: Sweep, i: nat)
    requires StateValid(start) && DueList(start, w.due, w.now) && i < |w.due|
    requires w.At(i) !in SkippedIds(w, |w.due|)
    ensures StaysUndue(start, w, i, |w.due|) <==> NeverReopened(start, w, i, |w.due|)
    ensures NeverReopened(start, w, i, |w.due|) ==> Undue(After(start, w, |w.due|), w.At(i), w.now)
  {
    hide StateValid, After, Undue, UndueThroughout, NoneReopens;
    SkippedMembers(w, |w.due|, i);
    TurnLeavesUndue(start, w, i, |w.due|);
  }

  /** In particular when every failover after its turn read a clock that had reached the sweep's time. */
  lemma TimelyOthersLeaveNothing(start: State, w: Sweep, i: nat)
    requires StateValid(start) && DueList(start, w.due, w.now) && i < |w.due|
    requires w.At(i) !in SkippedIds(w, |w.due|)
    requires forall k, step :: i < k < |w.due| && step in w.Before(k) ==> Timely(step, w.now)
    ensures Undue(After(start, w, |w.due|), w.At(i), w.now)
  {
    hide StateValid, After, Undue, Reopens, Run, Timely;
    forall k | i < k < |w.due|
      ensures NoneReopens(After(start, w, k), w.Before(k), w.At(i), w.now)
    {
      forall j | 0 <= j < |w.Before(k)|
        ensures !Reopens(Run(After(start, w, k), w.Before(k)[..j]), w.Before(k)[j], w.At(i), w.now)
      {
        TimelyNeverReopens(Run(After(start, w, k), w.Before(k)[..j]), w.Before(k)[j], w.At(i), w.now);
      }
    }
    NothingDueIsLeft(start, w, i);
  }

  /** A second sweep for the same time, any run later, neither lists nor reports any booking the first one really expired. */
  lemma SecondSweepFindsNone(start: State, w: Sweep, later: seq<Step>, again: Sweep, id: Id)
    requires StateValid(start) && DueList(start, w.due, w.now) && again.now == w.now
    requires var s := Run(After(start, w, |w.due|), later); DueList(s, again.due, again.now)
    requires id in ReportedIds(start, w, |w.due|) && id !in SkippedIds(w, |w.due|)
    ensures var s := Run(After(start, w, |w.due|), later); id !in again.due && id !in ReportedIds(s, again, |again.due|)
  {
    hide StateValid, Run, After, Found, Grows, Due;
    var end := After(start, w, |w.due|);
    ReportedMembers(start, w, |w.due|, id);
    var i :| 0 <= i < |w.due| && w.At(i) == id && Noted(start, w, i);
    SkippedMembers(w, |w.due|, i);
    TurnIsSound(start, w, i);
    SweepKeeps(start, w, |w.due|);
    RunGrows(end, later);
    ExpiredStays(end, Run(end, later), id);
    ExpiredIsUndue(Run(end, later), id, w.now);
    ReportedMembers(Run(end, later), again, |again.due|, id);
  }

  lemma ExpiredIsUndue(s: State, id: Id, now: int)
    requires IsExpired(s, id)
    ensures !Due(s.bookings[id], now)
  {
  }

  // ---------- the loop ----------

  /** Expires the booking's active hold, if it has one, and the booking with it. */
  method ExpireLockedBooking(database: Service, id: Id) returns (failed: Option<Error>)
    requires id in database.bookings && |ActiveHolds(database.Capacity(), id)| <= 1
    modifies database
    ensures failed.Some? ==> ExpireLocked(old(database.Snapshot()), id) == Abort(failed.value)
    ensures failed.None? ==> ExpireLocked(old(database.Snapshot()), id) == Commit(database.Snapshot())
  {
    ghost var k := database.Capacity();
    var active := ActiveHolds(database.Capacity(), id);
    if active != {} {
      var h :| h in active;
      forall x | x in active ensures x == h { OnlyElement(active, x, h); }
      assert FindActive(k, id) == Some(h);
      hide LeaveHold;
      failed := database.FreeHold(h, HoldStatus.Expired);
      if failed.Some? { return; }
      database.outbox := database.outbox + [StockMessage(HoldExpired, h)];
    } else {
      assert FindActive(k, id) == None;
      assert database.outbox + [] == database.outbox;
      failed := None;
    }
    database.bookings := database.bookings[id := Moved(database.bookings[id], BookingStatus.ConfirmationExpired)];
    database.outbox := database.outbox + [BookingMessage(BookingExpired, id)];
  }

  lemma AtMostOneHold(s: State, id: Id)
    requires StateValid(s)
    ensures |ActiveHolds(s.stock, id)| <= 1
  {
    hide StockValid, AllocationsOwned, MoneyValid, Linked, HoldOwned;
    var xs := ActiveHolds(s.stock, id);
    if xs != {} {
      var x :| x in xs;
      assert xs == {x};
    }
  }

  /** One locked transaction: the booking is looked at again, expired and noted; then the transaction commits or is taken back. */
  method ExpireOne(database: Service, id: Id, now: int, fate: Fate) returns (noted: bool, failed: bool)
    requires StateValid(database.Snapshot())
    modifies database
    ensures failed <==> fate != Commits
    ensures noted <==> fate != FailsInside && StillDue(old(database.Snapshot()), id, now)
    ensures failed ==> database.Snapshot() == old(database.Snapshot())
    ensures !failed ==> ExpireTx(old(database.Snapshot()), id, now) == Commit(database.Snapshot())
  {
    noted, failed := false, fate != Commits;
    if fate.FailsInside? || id !in database.bookings || !Due(database.bookings[id], now) { return; }
    var before := database.Snapshot();
    AtMostOneHold(before, id);
    ExpiryCommits(before, id, now);
    hide StateValid, ExpireLocked;
    var refused := ExpireLockedBooking(database, id);
    noted := true;
    if fate.FailsAtCommit? {
      database.Rollback(before);
    }
  }

  lemma TurnResult(start: State, w: Sweep, i: nat, s': State)
    requires if w.Fails(i) then s' == Found(start, w, i) else ExpireTx(Found(start, w, i), w.At(i), w.now) == Commit(s')
    ensures After(start, w, i + 1) == s'
  {
    hide Found, ExpireTx;
  }

  lemma ReportsGrow(start: State, w: Sweep, i: nat)
    ensures ReportedIds(start, w, i + 1) == ReportedIds(start, w, i) + (if Noted(start, w, i) then [w.At(i)] else [])
    ensures SkippedIds(w, i + 1) == SkippedIds(w, i) + (if w.Fails(i) then [w.At(i)] else [])
    ensures Noted(start, w, i) <==> w.FateOf(i) != FailsInside && StillDue(Found(start, w, i), w.At(i), w.now)
  {
    hide Found, StillDue;
  }

  lemma SweepStarts(start: State, w: Sweep)
    ensures After(start, w, 0) == start && ReportedIds(start, w, 0) == [] && SkippedIds(w, 0) == []
  {
    hide Found, Run, ExpireTx;
  }

  /** The sweep. Others work on the database between its transactions: found is what they leave it as before each lock. */
  method ExpireDue(database: Service, w: Sweep, found: seq<State>) returns (expired: seq<Id>, skipped: seq<Id>)
    requires StateValid(database.Snapshot()) && w.WellFormed() && DueList(database.Snapshot(), w.due, w.now)
    requires |found| == |w.due| && forall i :: 0 <= i < |found| ==> found[i] == Found(database.Snapshot(), w, i)
    modifies database
    ensures database.Snapshot() == After(old(database.Snapshot()), w, |w.due|)
    ensures expired == ReportedIds(old(database.Snapshot()), w, |w.due|) && skipped == SkippedIds(w, |w.due|)
  {
    hide StateValid, Run, ExpireTx, Found, After, Due, Noted, ReportedIds, SkippedIds, DueList, Grows;
    ghost var start := database.Snapshot();
    SweepStarts(start, w);
    expired, skipped := [], [];
    for i := 0 to |w.due|
      invariant database.Snapshot() == After(start, w, i)
      invariant expired == ReportedIds(start, w, i) && skipped == SkippedIds(w, i)
    {
      SweepKeeps(start, w, i);
      database.Rollback(found[i]);
      var noted, failed := ExpireOne(database, w.At(i), w.now, w.FateOf(i));
      TurnResult(start, w, i, database.Snapshot());
      ReportsGrow(start, w, i);
      if noted {
        expired := expired + [w.At(i)];
      }
      if failed {
        skipped := skipped + [w.At(i)];
      }
    }
  }
}
