/** A run on which a pending booking loses its hold: three supplier changes, back to a supplier already tried. */
module LostHold {
  import opened Wrappers
  import opened Policy
  import opened Terms
  import opened Stock
  import opened Ledger
  import opened Store
  import opened StoreInvariant
  import opened Runs
  import opened Capacity

  type Id = string

  const SITE := Site(true, true, true)

  const TERMS := Snapshot(None, None, None, [Rule(0, None, Absolute, "0")], "p")

  const EMPTY := State(map[], Stock(map["A" := Counters(9, 0, 0, 0), "B" := Counters(9, 0, 0, 0)], map[], map[]),
                       Ledger(map[], map[], map[], map[], map[]), [])

  function Asked(day: Day): NewBooking {
    NewBooking("b", "agent", "va", VendorConfirmation, Economics(100, "INR"), TERMS, None, day, "A", 1, 60, 0, 0, "h1", "", SITE)
  }

  /** Supplier A or B takes the booking over. */
  function Over(plan: Id, vendor: Id, session: Id, hold: Id, day: Day): Failover {
    Failover(plan, vendor, VendorConfirmation, Economics(100, "INR"), TERMS, None, day, session, 1, 60, 0, hold, "", SITE)
  }

  function Story(day: Day): seq<Step> {
    [Creates(Asked(day)),
     Rejects("b", ByVendor("va"), "full", 0, Some(Over("pb", "vb", "B", "h2", day))),
     Rejects("b", ByVendor("vb"), "full", 0, Some(Over("pa", "va", "A", "h3", day))),
     Rejects("b", ByVendor("va"), "full", 0, Some(Over("pb", "vb", "B", "h4", day)))]
  }

  function HoldAt(session: Id, reference: Reference, status: HoldStatus): Hold {
    Hold(session, "b", 1, 3600000, reference, status)
  }

  function Both(a: int, b: int): map<Id, Counters> {
    map["A" := Counters(9, 0, a, 0), "B" := Counters(9, 0, b, 0)]
  }

  // The capacity after one, two and three steps.

  function First(): Stock {
    Stock(Both(1, 0), map["h1" := HoldAt("A", BookingReference("b"), Active)], map[])
  }

  function Second(): Stock {
    Stock(Both(0, 1), map["h1" := HoldAt("A", BookingReference("b"), Released), "h2" := HoldAt("B", FailoverReference("b", "pb"), Active)], map[])
  }

  function Third(): Stock {
    Stock(Both(1, 0), map["h1" := HoldAt("A", BookingReference("b"), Released), "h2" := HoldAt("B", FailoverReference("b", "pb"), Released),
                          "h3" := HoldAt("A", FailoverReference("b", "pa"), Active)], map[])
  }

  /** The booking waits for this vendor, on this capacity. */
  ghost predicate Waiting(s: State, vendor: Id, k: Stock) {
    && s.stock == k && s.ledger == EMPTY.ledger
    && "b" in s.bookings && (forall x :: x in s.bookings ==> x == "b") && s.bookings["b"].recordType == Canonical && s.bookings["b"].status == PendingVendor
    && s.bookings["b"].vendor == vendor && s.bookings["b"].dueAt == Some(3600000) && s.bookings["b"].agent == "agent"
  }

  lemma OneStep(s: State, step: Step)
    ensures Run(s, [step]) == Next(s, step)
  {
    hide Next;
    RunExtends(s, [step], 0);
    NoSteps(s, [step]);
    assert [step][..1] == [step];
  }

  lemma TwoSteps(first: Step, second: Step)
    ensures Run(EMPTY, [first]) == Next(EMPTY, first) && Run(EMPTY, [first, second]) == Next(Next(EMPTY, first), second)
  {
    hide Next;
    OneStep(EMPTY, first);
    assert [first, second][..2] == [first, second] && [first, second][..1] == [first];
    RunExtends(EMPTY, [first, second], 1);
  }

  lemma TermsAccepted()
    ensures Accepted(TERMS.rules)
  {
    assert Text.DecimalValue("0") >= 0.0;
  }

  lemma OnlyActive(k: Stock, b: Id, h: Id)
    requires h in k.holds && k.holds[h].status == Active && k.holds[h].booking == b
    requires forall e :: e in k.holds && e != h ==> k.holds[e].status != Active || k.holds[e].booking != b
    ensures FindActive(k, b) == Some(h)
  {
    assert h in ActiveHolds(k, b);
    forall e | e in ActiveHolds(k, b)
      ensures e == h
    {
    }
  }

  lemma FirstPlaced()
    ensures PlaceHold(EMPTY.stock, "h1", "A", "b", 1, 3600000, BookingReference("b"), 0, SITE) == Commit((First(), "h1"))
  {
    forall e
      ensures !Filed(EMPTY.stock, "A", BookingReference("b"), e)
    {
    }
    assert EMPTY.stock.holds["h1" := HoldAt("A", BookingReference("b"), Active)] == First().holds;
    assert EMPTY.stock.counters["A" := AddHeld(EMPTY.stock.counters["A"], 1)] == First().counters;
  }

  lemma Asking(day: Day)
    ensures Waiting(Next(EMPTY, Creates(Asked(day))), "va", First())
  {
    hide PlaceHold, AllocateDirectly, Post, Accepted, First;
    TermsAccepted();
    FirstPlaced();
  }

  /** A failover under an unused key: the new hold is placed and the current one released. */
  lemma Changing(s: State, from: Id, current: Id, k: Stock, k': Stock, f: Failover)
    requires Waiting(s, from, k) && FindActive(k, "b") == Some(current)
    requires f.vendor != "" && f.snapshot == TERMS && f.mode == VendorConfirmation && f.lockMinutes == 60
    requires FailoverStock(k, "b", current, f, 0) == Commit((k', f.hold))
    ensures Waiting(Next(s, Rejects("b", ByVendor(from), "full", 0, Some(f))), f.vendor, k')
  {
    hide FailoverStock, Accepted, FindActive;
    TermsAccepted();
    ReasonGiven();
    hide RequestFingerprint.Trim;
  }

  lemma ReasonGiven()
    ensures RequestFingerprint.Trim("full") != ""
  {
    hide RequestFingerprint.Trim;
    RequestFingerprint.TrimKeepsTrimmed("full");
  }

  lemma FirstChange(day: Day)
    ensures FindActive(First(), "b") == Some("h1")
    ensures FailoverStock(First(), "b", "h1", Over("pb", "vb", "B", "h2", day), 0) == Commit((Second(), "h2"))
  {
    OnlyActive(First(), "b", "h1");
    forall e
      ensures !Filed(First(), "B", FailoverReference("b", "pb"), e)
    {
    }
    var k1 := Stock(Both(1, 1), First().holds["h2" := HoldAt("B", FailoverReference("b", "pb"), Active)], map[]);
    assert First().counters["B" := AddHeld(First().counters["B"], 1)] == k1.counters;
    assert PlaceHold(First(), "h2", "B", "b", 1, 3600000, FailoverReference("b", "pb"), 0, SITE) == Commit((k1, "h2"));
    assert k1.counters["A" := AddHeld(k1.counters["A"], -1)] == Second().counters;
    assert k1.holds["h1" := HoldAt("A", BookingReference("b"), Released)] == Second().holds;
    assert LeaveHold(k1, "h1", Released) == Commit(Second());
  }

  function Between(): Stock {
    Stock(Both(1, 1), Second().holds["h3" := HoldAt("A", FailoverReference("b", "pa"), Active)], map[])
  }

  lemma ThirdHoldPlaced()
    ensures PlaceHold(Second(), "h3", "A", "b", 1, 3600000, FailoverReference("b", "pa"), 0, SITE) == Commit((Between(), "h3"))
  {
    forall e
      ensures !Filed(Second(), "A", FailoverReference("b", "pa"), e)
    {
    }
    assert Second().counters["A" := AddHeld(Second().counters["A"], 1)] == Between().counters;
  }

  lemma SecondHoldReleased()
    ensures LeaveHold(Between(), "h2", Released) == Commit(Third())
  {
    assert Between().counters["B" := AddHeld(Between().counters["B"], -1)] == Third().counters;
    assert Between().holds["h2" := HoldAt("B", FailoverReference("b", "pb"), Released)] == Third().holds;
  }

  lemma SecondChange(day: Day)
    ensures FindActive(Second(), "b") == Some("h2")
    ensures FailoverStock(Second(), "b", "h2", Over("pa", "va", "A", "h3", day), 0) == Commit((Third(), "h3"))
  {
    OnlyActive(Second(), "b", "h2");
    hide PlaceHold, LeaveHold, Second, Between, Third;
    ThirdHoldPlaced();
    SecondHoldReleased();
  }

  lemma OldHoldReturns()
    ensures PlaceHold(Third(), "h4", "B", "b", 1, 3600000, FailoverReference("b", "pb"), 0, SITE) == Commit((Third(), "h2"))
    ensures Filed(Third(), "B", FailoverReference("b", "pb"), "h2")
  {
    assert Filed(Third(), "B", FailoverReference("b", "pb"), "h2");
    forall e | Filed(Third(), "B", FailoverReference("b", "pb"), e)
      ensures e == "h2"
    {
    }
  }

  /** The third change asks for a key already used: the released hold comes back and the live one is let go. */
  lemma ThirdChange(s: State, day: Day)
    requires Waiting(s, "va", Third())
    ensures ReusesKey(s, Rejects("b", ByVendor("va"), "full", 0, Some(Over("pb", "vb", "B", "h4", day))))
  {
    hide PlaceHold, Accepted, FindActive, RequestFingerprint.Trim, Filed;
    OnlyActive(Third(), "b", "h3");
    TermsAccepted();
    ReasonGiven();
    OldHoldReturns();
    assert FailoverStock(Third(), "b", "h3", Over("pb", "vb", "B", "h4", day), 0).Commit?;
    hide FailoverStock;
  }

  lemma StoryUnfolds(day: Day)
    ensures Waiting(Run(EMPTY, Story(day)[..3]), "va", Third())
  {
    var steps := Story(day);
    hide Next, Run, Waiting, FailoverStock, FindActive, First, Second, Third, Asked;
    Asking(day);
    FirstChange(day);
    SecondChange(day);
    NoSteps(EMPTY, steps);
    RunExtends(EMPTY, steps, 0);
    RunExtends(EMPTY, steps, 1);
    RunExtends(EMPTY, steps, 2);
    Changing(Run(EMPTY, steps[..1]), "va", "h1", First(), Second(), Over("pb", "vb", "B", "h2", day));
    Changing(Run(EMPTY, steps[..2]), "vb", "h2", Second(), Third(), Over("pa", "va", "A", "h3", day));
  }

  lemma HeldBefore(s: State)
    requires Waiting(s, "va", Third())
    ensures Held(s)
  {
    assert Third().holds["h3"].booking == "b";
  }

  /** From an empty store, three supplier changes leave a pending booking without a hold. */
  lemma PendingWithoutHold(day: Day)
    ensures Initial(EMPTY) && Held(EMPTY) && !Held(Run(EMPTY, Story(day)))
  {
    var steps := Story(day);
    StoryUnfolds(day);
    hide Next, Run, ReusesKey, Held, StateValid, Waiting;
    ThirdChange(Run(EMPTY, steps[..3]), day);
    HeldBefore(Run(EMPTY, steps[..3]));
    EmptyIsHeld();
    InitialIsValid(EMPTY);
    RunKeeps(EMPTY, steps[..3]);
    RunExtends(EMPTY, steps, 3);
    StepHeld(Run(EMPTY, steps[..3]), steps[3]);
    assert steps[..4] == steps;
  }

  lemma EmptyIsHeld()
    ensures Initial(EMPTY) && Held(EMPTY)
  {
  }
}
