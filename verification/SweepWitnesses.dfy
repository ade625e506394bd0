/** Two sweeps from an empty store: one leaves a due booking behind, because between the booking's turn and the end a failover on a slow
    clock reopened it; the other reports a booking it did not expire. */
module SweepWitnesses {
  import opened Wrappers
  import opened Policy
  import opened Terms
  import opened Stock
  import opened Store
  import opened StoreInvariant
  import opened Runs
  import opened Capacity
  import opened LostHold
  import opened Expiry
  import History

  type Id = string

  /** The sweep's time, which is the deadline of both bookings. */
  const DUE := 3600000

  function AskedToo(day: Day): NewBooking {
    Asked(day).(id := "c", hold := "hc")
  }

  function Opening(day: Day): seq<Step> {
    [Creates(Asked(day)), Creates(AskedToo(day))]
  }

  // The first failover leaves a deadline just after the sweep's time, the second one just at it.

  function Postponing(day: Day): Step {
    Rejects("b", ByVendor("va"), "full", 1, Some(Over("pb", "vb", "B", "h2", day)))
  }

  function Backdating(day: Day): Step {
    Rejects("b", ByVendor("vb"), "full", 0, Some(Over("pa", "va", "A", "h3", day)))
  }

  function Sweeping(day: Day): Sweep {
    Sweep(["b", "c"], DUE, [[Postponing(day)], [Backdating(day)]], [Commits, Commits])
  }

  // ---------- capacity ----------

  /** The new hold placed and the old one released. */
  function Exchanged(k: Stock, current: Id, f: Failover, now: int): Stock
    requires current in k.holds && k.holds[current].session in k.counters && f.session in k.counters
  {
    var placed := Hold(f.session, "b", f.quantity, now + f.lockMinutes * 60000, FailoverReference("b", f.plan), Active);
    var left := k.holds[current];
    var counters := k.counters[f.session := AddHeld(k.counters[f.session], f.quantity)];
    k.(holds := k.holds[f.hold := placed][current := left.(status := Released)],
       counters := counters[left.session := AddHeld(counters[left.session], -left.quantity)])
  }

  lemma Exchanging(k: Stock, current: Id, f: Failover, now: int)
    requires current in k.holds && k.holds[current].session in k.counters && k.holds[current].status == Active && f.session in k.counters
    requires f.mode == VendorConfirmation && f.site == SITE && f.clock < now + f.lockMinutes * 60000
    requires f.hold !in k.holds && 0 < f.quantity <= Available(k.counters[f.session])
    requires forall e :: !Filed(k, f.session, FailoverReference("b", f.plan), e)
    ensures FailoverStock(k, "b", current, f, now) == Commit((Exchanged(k, current, f, now), f.hold))
  {
  }

  function Together(): Stock {
    First().(holds := First().holds["hc" := Hold("A", "c", 1, DUE, BookingReference("c"), Active)],
             counters := First().counters["A" := AddHeld(First().counters["A"], 1)])
  }

  function Postponed(day: Day): Stock {
    Exchanged(Together(), "h1", Over("pb", "vb", "B", "h2", day), 1)
  }

  function Returned(day: Day): Stock {
    Exchanged(Postponed(day), "h2", Over("pa", "va", "A", "h3", day), 0)
  }

  lemma PostponingGoes(day: Day)
    ensures FindActive(Together(), "b") == Some("h1")
    ensures FailoverStock(Together(), "b", "h1", Over("pb", "vb", "B", "h2", day), 1) == Commit((Postponed(day), "h2"))
  {
    OnlyActive(Together(), "b", "h1");
    forall e
      ensures !Filed(Together(), "B", FailoverReference("b", "pb"), e)
    {
    }
    Exchanging(Together(), "h1", Over("pb", "vb", "B", "h2", day), 1);
  }

  lemma BackdatingGoes(day: Day)
    ensures FindActive(Postponed(day), "b") == Some("h2")
    ensures FailoverStock(Postponed(day), "b", "h2", Over("pa", "va", "A", "h3", day), 0) == Commit((Returned(day), "h3"))
  {
    var k := Postponed(day);
    OnlyActive(k, "b", "h2");
    forall e
      ensures !Filed(k, "A", FailoverReference("b", "pa"), e)
    {
    }
    Exchanging(k, "h2", Over("pa", "va", "A", "h3", day), 0);
  }

  // ---------- bookings ----------

  /** Two bookings wait; the first one for this vendor until this time, on this capacity. */
  ghost predicate TwoWait(s: State, vendor: Id, until: int, k: Stock) {
    && s.bookings.Keys == {"b", "c"} && s.stock == k
    && s.bookings["b"].recordType == Canonical && s.bookings["b"].status == PendingVendor && s.bookings["b"].vendor == vendor
    && s.bookings["b"].dueAt == Some(until)
    && s.bookings["c"].recordType == Canonical && s.bookings["c"].status == PendingVendor && s.bookings["c"].dueAt == Some(DUE)
  }

  lemma AskingToo(s: State, day: Day)
    requires Waiting(s, "va", First())
    ensures TwoWait(Next(s, Creates(AskedToo(day))), "va", DUE, Together())
  {
    TermsAccepted();
    forall e
      ensures !Filed(First(), "A", BookingReference("c"), e)
    {
    }
    assert PlaceHold(First(), "hc", "A", "c", 1, DUE, BookingReference("c"), 0, SITE) == Commit((Together(), "hc"));
    hide PlaceHold, Accepted;
    var s' := Next(s, Creates(AskedToo(day)));
    assert s.bookings.Keys == {"b"};
    assert s'.bookings == s.bookings["c" := BookingOf(AskedToo(day))];
  }

  /** A failover that goes through moves the booking to its vendor and deadline. */
  lemma Moving(s: State, from: Id, until: int, current: Id, k: Stock, k': Stock, now: int, f: Failover)
    requires TwoWait(s, from, until, k) && FindActive(k, "b") == Some(current) && now < until
    requires f.vendor != "" && f.snapshot == TERMS && f.mode == VendorConfirmation && f.lockMinutes == 60
    requires FailoverStock(k, "b", current, f, now) == Commit((k', f.hold))
    ensures var step := Rejects("b", ByVendor(from), "full", now, Some(f));
            StepTx(s, step).Commit? && FailsOver(s, step) && TwoWait(Next(s, step), f.vendor, now + DUE, k')
  {
    hide FailoverStock, Accepted, FindActive;
    TermsAccepted();
    ReasonGiven();
    hide RequestFingerprint.Trim;
  }

  lemma Opened(day: Day)
    ensures StateValid(Run(EMPTY, Opening(day))) && TwoWait(Run(EMPTY, Opening(day)), "va", DUE, Together())
  {
    hide Next, Run, StateValid, TwoWait, Waiting, Initial, Held, First, Together;
    EmptyIsHeld();
    InitialIsValid(EMPTY);
    RunKeeps(EMPTY, Opening(day));
    TwoSteps(Creates(Asked(day)), Creates(AskedToo(day)));
    Asking(day);
    AskingToo(Next(EMPTY, Creates(Asked(day))), day);
  }

  lemma BothListed(s: State, vendor: Id, k: Stock, day: Day)
    requires TwoWait(s, vendor, DUE, k)
    ensures DueList(s, Sweeping(day).due, DUE)
  {
    assert forall id :: id in s.bookings.Keys <==> id in s.bookings;
  }

  /** The expiry of one booking leaves the record of another alone. */
  lemma OthersStay(s: State, id: Id, now: int, other: Id)
    requires StillDue(s, other, now) && other != id
    ensures StillDue(Next(s, Expires(id, now)), other, now)
  {
    hide FindActive, LeaveHold;
  }

  lemma NoneSkipped(day: Day)
    ensures SkippedIds(Sweeping(day), 2) == []
  {
    assert SkippedIds(Sweeping(day), 1) == [];
  }

  lemma Postpones(s: State, day: Day)
    requires TwoWait(s, "va", DUE, Together())
    ensures TwoWait(Run(s, [Postponing(day)]), "vb", DUE + 1, Postponed(day))
  {
    hide Next, Run, TwoWait, FindActive, FailoverStock, Together, Postponed;
    PostponingGoes(day);
    Moving(s, "va", DUE, "h1", Together(), Postponed(day), 1, Over("pb", "vb", "B", "h2", day));
    OneStep(s, Postponing(day));
  }

  lemma Backdated(s: State, day: Day)
    requires TwoWait(s, "vb", DUE + 1, Postponed(day))
    ensures Reopens(s, Backdating(day), "b", DUE)
    ensures StillDue(Run(s, [Backdating(day)]), "b", DUE)
  {
    hide Next, Run, FindActive, FailoverStock, Postponed, Returned, StepTx;
    BackdatingGoes(day);
    Moving(s, "vb", DUE + 1, "h2", Postponed(day), Returned(day), 0, Over("pa", "va", "A", "h3", day));
    OneStep(s, Backdating(day));
  }

  lemma TurnStarts(start: State, day: Day)
    ensures var w := Sweeping(day); Found(start, w, 0) == Run(start, [Postponing(day)]) && Found(start, w, 1) == Run(After(start, w, 1), [Backdating(day)])
  {
    hide Run, ExpireTx, Postponing, Backdating;
    assert After(start, Sweeping(day), 0) == start;
  }

  lemma NotYetDue(s: State, k: Stock)
    requires TwoWait(s, "vb", DUE + 1, k)
    ensures !StillDue(s, "b", DUE)
  {
  }

  /** At its own turn the first booking is not due, so it is left as it was found. */
  lemma FirstTurn(start: State, day: Day)
    requires StateValid(start) && TwoWait(start, "va", DUE, Together())
    ensures var w := Sweeping(day); StateValid(After(start, w, 1)) && TwoWait(After(start, w, 1), "vb", DUE + 1, Postponed(day))
  {
    var w := Sweeping(day);
    hide StateValid, Run, After, Found, Together, Postponed, StillDue, TwoWait, History.Grows, DueList, Postponing, Backdating;
    BothListed(start, "va", Together(), day);
    Postpones(start, day);
    NotYetDue(Run(start, [Postponing(day)]), Postponed(day));
    TurnStarts(start, day);
    SweepKeeps(start, w, 1);
    TurnIsSound(start, w, 0);
  }

  /** After it, a failover leaves the booking a deadline already passed; the last turn is not its own. */
  lemma SecondTurn(start: State, day: Day)
    requires StateValid(start) && TwoWait(start, "va", DUE, Together())
    ensures var w := Sweeping(day);
            && Reopens(After(start, w, 1), Backdating(day), "b", DUE)
            && StillDue(After(start, w, 2), "b", DUE)
  {
    var w := Sweeping(day);
    hide StateValid, Next, Run, After, Found, Together, Postponed, StillDue, Reopens, TwoWait, History.Grows, DueList, Postponing, Backdating;
    FirstTurn(start, day);
    BothListed(start, "va", Together(), day);
    Backdated(After(start, w, 1), day);
    TurnStarts(start, day);
    SweepKeeps(start, w, 1);
    OneTurn(start, w, 1);
    OthersStay(Found(start, w, 1), "c", DUE, "b");
  }

  /** From an empty store: a booking the sweep listed, and neither skipped nor expired, is pending and due when the sweep ends, because
      a failover reopened it after its turn. */
  lemma ListedAndLeftDue(day: Day)
    ensures var start := Run(EMPTY, Opening(day));
            var w := Sweeping(day);
            && Initial(EMPTY) && DueList(start, w.due, w.now) && "b" in w.due && "b" !in SkippedIds(w, 2)
            && Reopens(After(start, w, 1), Backdating(day), "b", w.now)
            && !NeverReopened(start, w, 0, 2)
            && StillDue(After(start, w, 2), "b", w.now)
  {
    var start := Run(EMPTY, Opening(day));
    var w := Sweeping(day);
    hide StateValid, Run, After, Due, Reopens, TwoWait, NeverReopened, StaysUndue;
    EmptyIsHeld();
    Opened(day);
    BothListed(start, "va", Together(), day);
    NoneSkipped(day);
    SecondTurn(start, day);
    NothingDueIsLeft(start, w, 0);
  }

  // ---------- reported, not expired ----------

  function Failing(): Sweep {
    Sweep(["b"], DUE, [[]], [FailsAtCommit])
  }

  lemma FailingTurn(start: State)
    requires Waiting(start, "va", First())
    ensures DueList(start, ["b"], DUE) && After(start, Failing(), 1) == start && ReportedIds(start, Failing(), 1) == ["b"]
  {
    hide ExpireTx, First;
    assert Found(start, Failing(), 0) == start;
    assert ReportedIds(start, Failing(), 0) == [];
  }

  /** The one transaction of this sweep fails at its commit: the booking is reported expired and is still pending and due. */
  lemma ReportedAndStillDue(day: Day)
    ensures var start := Run(EMPTY, [Creates(Asked(day))]);
            var w := Failing();
            && DueList(start, w.due, w.now) && ReportedIds(start, w, 1) == ["b"]
            && StillDue(After(start, w, 1), "b", w.now)
  {
    hide Next, Run, After, ReportedIds, First, Asked, DueList;
    OneStep(EMPTY, Creates(Asked(day)));
    Asking(day);
    FailingTurn(Run(EMPTY, [Creates(Asked(day))]));
  }
}
