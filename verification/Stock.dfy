/** Session capacity: holds, allocations and the counters kept beside them. */
module Stock {
  import opened Wrappers
  import opened Sums

  type Id = string

  datatype HoldStatus = Active | Released | Expired | Converted

  /** The reference key a booking's holds and allocations are filed under. */
  datatype Reference = BookingReference(booking: Id) | FailoverReference(booking: Id, plan: Id)

  datatype Hold = Hold(session: Id, booking: Id, quantity: int, expiresAt: int, reference: Reference, status: HoldStatus)

  datatype AllocationStatus = AllocationConfirmed | AllocationReleased

  datatype Allocation = Allocation(session: Id, booking: Id, quantity: int, sourceHold: Option<Id>, status: AllocationStatus)

  datatype Counters = Counters(total: int, blocked: int, held: int, confirmed: int)

  /** What the session and its resources allow at the moment of the call. */
  datatype Site = Site(reviewed: bool, open: bool, ready: bool)

  datatype Stock = Stock(counters: map<Id, Counters>, holds: map<Id, Hold>, allocations: map<Id, Allocation>)

  function AddHeld(c: Counters, q: int): Counters {
    c.(held := c.held + q)
  }

  function AddConfirmed(c: Counters, q: int): Counters {
    c.(confirmed := c.confirmed + q)
  }

  function Available(c: Counters): int {
    var free := c.total - c.blocked - c.held - c.confirmed;
    if free < 0 then 0 else free
  }

  /** Releasing or expiring a hold; a hold that is no longer active is left as it is. */
  function LeaveHold(k: Stock, h: Id, to: HoldStatus): Tx<Stock> {
    if h !in k.holds then Abort(NotFound)
    else
      var hold := k.holds[h];
      if hold.session !in k.counters then Abort(NotFound)
      else if hold.status != Active then Commit(k)
      else Commit(k.(holds := k.holds[h := hold.(status := to)],
                     counters := k.counters[hold.session := AddHeld(k.counters[hold.session], -hold.quantity)]))
  }

  ghost predicate Filed(k: Stock, session: Id, reference: Reference, h: Id) {
    h in k.holds && k.holds[h].session == session && k.holds[h].reference == reference
  }

  /** Placing a hold under a reference key; a hold already filed there is handed back instead, whatever its status. */
  ghost function PlaceHold(k: Stock, id: Id, session: Id, booking: Id, quantity: int, expiresAt: int,
                           reference: Reference, now: int, site: Site): Tx<(Stock, Id)> {
    if expiresAt <= now then Abort(HoldExpiryPassed)
    else if session !in k.counters then Abort(NotFound)
    else if !site.reviewed then Abort(InventoryUnavailable)
    else if exists e :: Filed(k, session, reference, e) then
      var e :| Filed(k, session, reference, e);
      if k.holds[e].quantity != quantity then Abort(HoldQuantityConflict) else Commit((k, e))
    else if !site.open || !site.ready || quantity <= 0 || quantity > Available(k.counters[session]) then Abort(InventoryUnavailable)
    else if id in k.holds then Abort(UniqueViolation)
    else Commit((k.(holds := k.holds[id := Hold(session, booking, quantity, expiresAt, reference, Active)],
                    counters := k.counters[session := AddHeld(k.counters[session], quantity)]), id))
  }

  /** Converting an active hold into an allocation of the same size. */
  ghost function ConvertHold(k: Stock, h: Id, id: Id, now: int, site: Site): Tx<Stock> {
    if h !in k.holds then Abort(NotFound)
    else
      var hold := k.holds[h];
      if hold.session !in k.counters then Abort(NotFound)
      else if hold.status == Converted then
        if exists a :: a in k.allocations && k.allocations[a].sourceHold == Some(h) then Commit(k) else Abort(NotFound)
      else if hold.status != Active then Abort(HoldNotActive)
      else if hold.expiresAt <= now then Abort(ConfirmationExpired)
      else if !site.reviewed || !site.open || !site.ready then Abort(InventoryUnavailable)
      else if id in k.allocations then Abort(UniqueViolation)
      else
        var c := k.counters[hold.session];
        Commit(k.(holds := k.holds[h := hold.(status := Converted)],
                  counters := k.counters[hold.session := AddConfirmed(AddHeld(c, -hold.quantity), hold.quantity)],
                  allocations := k.allocations[id := Allocation(hold.session, hold.booking, hold.quantity, Some(h), AllocationConfirmed)]))
  }

  /** The allocation of an instant booking. */
  ghost function AllocateDirectly(k: Stock, id: Id, session: Id, booking: Id, quantity: int, site: Site): Tx<Stock> {
    if session !in k.counters then Abort(NotFound)
    else if !site.reviewed then Abort(InventoryUnavailable)
    else if exists a :: a in k.allocations && k.allocations[a].session == session && k.allocations[a].booking == booking
    then Commit(k)
    else if !site.open || !site.ready || quantity <= 0 || quantity > Available(k.counters[session]) then Abort(InventoryUnavailable)
    else if id in k.allocations then Abort(UniqueViolation)
    else Commit(k.(allocations := k.allocations[id := Allocation(session, booking, quantity, None, AllocationConfirmed)],
                   counters := k.counters[session := AddConfirmed(k.counters[session], quantity)]))
  }

  function ReleaseAllocation(k: Stock, a: Id): Tx<Stock> {
    if a !in k.allocations then Abort(NotFound)
    else
      var allocation := k.allocations[a];
      if allocation.session !in k.counters then Abort(NotFound)
      else if allocation.status == AllocationReleased then Commit(k)
      else Commit(k.(allocations := k.allocations[a := allocation.(status := AllocationReleased)],
                     counters := k.counters[allocation.session := AddConfirmed(k.counters[allocation.session], -allocation.quantity)]))
  }

  /** A vendor's bulk edit of one session's capacity. */
  function AdjustCapacity(k: Stock, session: Id, total: int, blocked: int): Tx<Stock> {
    var c := if session in k.counters then k.counters[session] else Counters(0, 0, 0, 0);
    if total < 0 || blocked < 0 || total < blocked + c.held + c.confirmed then Abort(InventoryUnavailable)
    else Commit(k.(counters := k.counters[session := c.(total := total, blocked := blocked)]))
  }

  // ---------- what each write is for ----------

  /** Under a key not used in the session a hold is placed exactly when it ends in the future, the session is reviewed, open and ready, and
      so much is still free; it is for exactly that. */
  lemma PlacedExactly(k: Stock, id: Id, session: Id, booking: Id, quantity: int, expiresAt: int, reference: Reference, now: int, site: Site)
    requires forall e :: !Filed(k, session, reference, e)
    ensures PlaceHold(k, id, session, booking, quantity, expiresAt, reference, now, site).Commit? <==>
              && expiresAt > now && session in k.counters && site.reviewed && site.open && site.ready && id !in k.holds && quantity > 0
              && var c := k.counters[session]; c.blocked + c.held + c.confirmed + quantity <= c.total
    ensures PlaceHold(k, id, session, booking, quantity, expiresAt, reference, now, site).Commit? ==>
              var (k', h) := PlaceHold(k, id, session, booking, quantity, expiresAt, reference, now, site).value;
              var c := k.counters[session];
              && h == id && k'.holds == k.holds[id := Hold(session, booking, quantity, expiresAt, reference, Active)]
              && k'.counters == k.counters[session := Counters(c.total, c.blocked, c.held + quantity, c.confirmed)] && k'.allocations == k.allocations
  {
  }

  /** An active hold becomes an allocation exactly while it lasts and the session is reviewed, open and ready; of the same size, in the same
      session, for the same booking. */
  lemma ConvertedExactly(k: Stock, h: Id, id: Id, now: int, site: Site)
    requires h in k.holds && k.holds[h].session in k.counters && k.holds[h].status == Active
    ensures ConvertHold(k, h, id, now, site).Commit? <==>
              now < k.holds[h].expiresAt && site.reviewed && site.open && site.ready && id !in k.allocations
    ensures ConvertHold(k, h, id, now, site).Commit? ==>
              var k', hold := ConvertHold(k, h, id, now, site).value, k.holds[h];
              var c := k.counters[hold.session];
              && k'.allocations == k.allocations[id := Allocation(hold.session, hold.booking, hold.quantity, Some(h), AllocationConfirmed)]
              && k'.holds == k.holds[h := hold.(status := Converted)]
              && k'.counters == k.counters[hold.session := Counters(c.total, c.blocked, c.held - hold.quantity, c.confirmed + hold.quantity)]
  {
  }

  /** A booking without an allocation in the session is allocated directly exactly when the session is reviewed, open and ready and so much
      is still free; it gets exactly that. */
  lemma AllocatedExactly(k: Stock, id: Id, session: Id, booking: Id, quantity: int, site: Site)
    requires forall a :: a in k.allocations ==> !(k.allocations[a].session == session && k.allocations[a].booking == booking)
    ensures AllocateDirectly(k, id, session, booking, quantity, site).Commit? <==>
              && session in k.counters && site.reviewed && site.open && site.ready && id !in k.allocations && quantity > 0
              && var c := k.counters[session]; c.blocked + c.held + c.confirmed + quantity <= c.total
    ensures AllocateDirectly(k, id, session, booking, quantity, site).Commit? ==>
              var k', c := AllocateDirectly(k, id, session, booking, quantity, site).value, k.counters[session];
              && k'.allocations == k.allocations[id := Allocation(session, booking, quantity, None, AllocationConfirmed)]
              && k'.counters == k.counters[session := Counters(c.total, c.blocked, c.held, c.confirmed + quantity)] && k'.holds == k.holds
  {
  }

  /** A capacity edit sets the session's total and blocked capacity to what was asked, exactly when that covers what is held and confirmed. */
  lemma AdjustedExactly(k: Stock, session: Id, total: int, blocked: int)
    ensures var c := if session in k.counters then k.counters[session] else Counters(0, 0, 0, 0);
            && (AdjustCapacity(k, session, total, blocked).Commit? <==> 0 <= total && 0 <= blocked && blocked + c.held + c.confirmed <= total)
            && (AdjustCapacity(k, session, total, blocked).Commit? ==>
                  AdjustCapacity(k, session, total, blocked).value
                  == Stock(k.counters[session := Counters(total, blocked, c.held, c.confirmed)], k.holds, k.allocations))
  {
  }

  // ---------- the counters always tell the truth ----------

  ghost function HeldWeight(session: Id): Hold -> int {
    (h: Hold) => if h.session == session && h.status == Active then h.quantity else 0
  }

  ghost function ConfirmedWeight(session: Id): Allocation -> int {
    (a: Allocation) => if a.session == session && a.status == AllocationConfirmed then a.quantity else 0
  }

  ghost predicate CountersTrue(k: Stock, s: Id)
    requires s in k.counters
  {
    var c := k.counters[s];
    && c.held == SumOver(k.holds, HeldWeight(s))
    && c.confirmed == SumOver(k.allocations, ConfirmedWeight(s))
    && 0 <= c.blocked
    && c.blocked + c.held + c.confirmed <= c.total
  }

  ghost predicate StockValid(k: Stock) {
    && (forall h :: h in k.holds ==> k.holds[h].quantity > 0 && k.holds[h].session in k.counters)
    && (forall a :: a in k.allocations ==> k.allocations[a].quantity > 0 && k.allocations[a].session in k.counters)
    && (forall s :: s in k.counters ==> CountersTrue(k, s))
  }

  lemma HoldChanges(k: Stock, h: Id, v: Hold, s: Id)
    requires h in k.holds && v.session == k.holds[h].session && v.quantity == k.holds[h].quantity
    ensures SumOver(k.holds[h := v], HeldWeight(s))
            == SumOver(k.holds, HeldWeight(s)) + (if s != v.session then 0 else
                 (if v.status == Active then v.quantity else 0) - (if k.holds[h].status == Active then v.quantity else 0))
  {
    SumUpdate(k.holds, HeldWeight(s), h, v);
  }

  lemma LeaveHoldKeepsStock(k: Stock, h: Id, to: HoldStatus)
    requires StockValid(k) && to != Active && LeaveHold(k, h, to).Commit?
    ensures StockValid(LeaveHold(k, h, to).value)
  {
    var k' := LeaveHold(k, h, to).value;
    forall s | s in k'.counters
      ensures CountersTrue(k', s)
    {
      assert CountersTrue(k, s);
      HoldChanges(k, h, k'.holds[h], s);
    }
  }

  lemma PlaceHoldKeepsStock(k: Stock, id: Id, session: Id, booking: Id, quantity: int, expiresAt: int,
                            reference: Reference, now: int, site: Site)
    requires StockValid(k)
    requires PlaceHold(k, id, session, booking, quantity, expiresAt, reference, now, site).Commit?
    ensures StockValid(PlaceHold(k, id, session, booking, quantity, expiresAt, reference, now, site).value.0)
  {
    var (k', e) := PlaceHold(k, id, session, booking, quantity, expiresAt, reference, now, site).value;
    if k' != k {
      forall s | s in k'.counters
        ensures CountersTrue(k', s)
      {
        assert CountersTrue(k, s);
        SumInsert(k.holds, HeldWeight(s), id, k'.holds[id]);
      }
    }
  }

  lemma ConvertHoldKeepsStock(k: Stock, h: Id, id: Id, now: int, site: Site)
    requires StockValid(k) && ConvertHold(k, h, id, now, site).Commit?
    ensures StockValid(ConvertHold(k, h, id, now, site).value)
  {
    var k' := ConvertHold(k, h, id, now, site).value;
    if k' != k {
      forall s | s in k'.counters
        ensures CountersTrue(k', s)
      {
        assert CountersTrue(k, s);
        HoldChanges(k, h, k'.holds[h], s);
        SumInsert(k.allocations, ConfirmedWeight(s), id, k'.allocations[id]);
      }
    }
  }

  lemma AllocateDirectlyKeepsStock(k: Stock, id: Id, session: Id, booking: Id, quantity: int, site: Site)
    requires StockValid(k) && AllocateDirectly(k, id, session, booking, quantity, site).Commit?
    ensures StockValid(AllocateDirectly(k, id, session, booking, quantity, site).value)
  {
    var k' := AllocateDirectly(k, id, session, booking, quantity, site).value;
    if k' != k {
      forall s | s in k'.counters
        ensures CountersTrue(k', s)
      {
        assert CountersTrue(k, s);
        SumInsert(k.allocations, ConfirmedWeight(s), id, k'.allocations[id]);
      }
    }
  }

  lemma ReleaseAllocationKeepsStock(k: Stock, a: Id)
    requires StockValid(k) && ReleaseAllocation(k, a).Commit?
    ensures StockValid(ReleaseAllocation(k, a).value)
  {
    var k' := ReleaseAllocation(k, a).value;
    if k' != k {
      forall s | s in k'.counters
        ensures CountersTrue(k', s)
      {
        assert CountersTrue(k, s);
        SumUpdate(k.allocations, ConfirmedWeight(s), a, k'.allocations[a]);
      }
    }
  }

  lemma AdjustCapacityKeepsStock(k: Stock, session: Id, total: int, blocked: int)
    requires StockValid(k) && AdjustCapacity(k, session, total, blocked).Commit?
    ensures StockValid(AdjustCapacity(k, session, total, blocked).value)
  {
    var k' := AdjustCapacity(k, session, total, blocked).value;
    forall s | s in k'.counters
      ensures CountersTrue(k', s)
    {
      if s in k.counters {
        assert CountersTrue(k, s);
      } else {
        SumZero(k.holds, HeldWeight(s));
        SumZero(k.allocations, ConfirmedWeight(s));
      }
    }
  }

  /** In a valid stock no counter is negative and no session is oversold. */
  lemma NeverOversold(k: Stock, s: Id)
    requires StockValid(k) && s in k.counters
    ensures var c := k.counters[s];
            0 <= c.blocked && 0 <= c.held && 0 <= c.confirmed && c.blocked + c.held + c.confirmed <= c.total
  {
    assert CountersTrue(k, s);
    SumNonNegative(k.holds, HeldWeight(s));
    SumNonNegative(k.allocations, ConfirmedWeight(s));
  }
}
