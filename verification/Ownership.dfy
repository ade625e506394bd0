/** Which booking owns which capacity, and how each capacity write keeps that ownership. */
module Ownership {
  import opened Wrappers
  import opened Terms
  import opened Stock
  import opened Store

  type Id = string

  predicate Live(s: BookingStatus) {
    s == BookingStatus.Confirmed || s == Redeemed || s == Completed
  }

  ghost predicate HoldOwned(bs: map<Id, Booking>, hold: Hold) {
    && hold.booking in bs && bs[hold.booking].recordType == Canonical && hold.reference.booking == hold.booking
    && (hold.status == Active ==> IsPending(bs[hold.booking].status) && bs[hold.booking].dueAt == Some(hold.expiresAt))
    && (hold.status == Converted ==> !IsPending(bs[hold.booking].status))
  }

  ghost predicate AllocationOwned(bs: map<Id, Booking>, a: Allocation) {
    && a.booking in bs && bs[a.booking].recordType == Canonical && !IsPending(bs[a.booking].status)
    && (a.status == AllocationConfirmed ==> Live(bs[a.booking].status))
  }

  ghost predicate HasHold(k: Stock, b: Id) {
    exists h :: h in k.holds && k.holds[h].booking == b && k.holds[h].status == Active
  }

  ghost predicate HasAllocation(k: Stock, b: Id) {
    exists a :: a in k.allocations && k.allocations[a].booking == b && k.allocations[a].status == AllocationConfirmed
  }

  ghost predicate OneActiveEach(k: Stock) {
    forall h, g ::
      (h in k.holds && g in k.holds && k.holds[h].status == Active && k.holds[g].status == Active
       && k.holds[h].booking == k.holds[g].booking) ==> h == g
  }

  ghost predicate OneConfirmedEach(k: Stock) {
    forall a, c ::
      (a in k.allocations && c in k.allocations && k.allocations[a].status == AllocationConfirmed
       && k.allocations[c].status == AllocationConfirmed && k.allocations[a].booking == k.allocations[c].booking) ==> a == c
  }

  ghost predicate HoldsOwned(bs: map<Id, Booking>, k: Stock) {
    OneActiveEach(k) && forall h :: h in k.holds ==> HoldOwned(bs, k.holds[h])
  }

  ghost predicate AllocationsOwned(bs: map<Id, Booking>, k: Stock) {
    && OneConfirmedEach(k)
    && (forall a :: a in k.allocations ==> AllocationOwned(bs, k.allocations[a]))
    && (forall b :: b in bs && bs[b].recordType == Canonical && Live(bs[b].status) ==> HasAllocation(k, b))
  }

  ghost predicate Owned(bs: map<Id, Booking>, k: Stock) {
    HoldsOwned(bs, k) && AllocationsOwned(bs, k)
  }

  /** The two stocks agree on whether every booking but one has an active hold. */
  ghost predicate SameHoldsElsewhere(k: Stock, k': Stock, id: Id) {
    forall b :: b != id ==> (HasHold(k, b) <==> HasHold(k', b))
  }

  lemma FoundIsActive(k: Stock, id: Id)
    ensures FindActive(k, id).Some? ==> FindActive(k, id).value in ActiveHolds(k, id)
    ensures FindActive(k, id).None? ==> ActiveHolds(k, id) == {} && !HasHold(k, id)
  {
    if HasHold(k, id) {
      var h :| h in k.holds && k.holds[h].booking == id && k.holds[h].status == Active;
      assert h in ActiveHolds(k, id);
    }
  }

  // ---------- a booking that leaves the pending or live states ----------

  predicate Closed(b: Booking) {
    !IsPending(b.status) && !Live(b.status)
  }

  lemma HoldUntouched(k: Stock, k': Stock, b: Id, h: Id)
    requires h in k.holds && h in k'.holds && k'.holds == k.holds[h := k'.holds[h]]
    requires k.holds[h].booking == k'.holds[h].booking != b
    ensures HasHold(k, b) <==> HasHold(k', b)
  {
    if HasHold(k, b) {
      var g :| g in k.holds && k.holds[g].booking == b && k.holds[g].status == Active;
      assert g in k'.holds && k'.holds[g] == k.holds[g];
    }
    if HasHold(k', b) {
      var g :| g in k'.holds && k'.holds[g].booking == b && k'.holds[g].status == Active;
      assert g in k.holds && k'.holds[g] == k.holds[g];
    }
  }

  /** Letting go of a pending booking's hold closes its ownership. */
  lemma ReleaseCloses(bs: map<Id, Booking>, k: Stock, id: Id, b': Booking, h: Id, to: HoldStatus)
    requires Owned(bs, k) && id in bs && IsPending(bs[id].status) && bs[id].recordType == b'.recordType == Canonical && Closed(b')
    requires h in ActiveHolds(k, id) && (to == Released || to == HoldStatus.Expired) && LeaveHold(k, h, to).Commit?
    ensures var k' := LeaveHold(k, h, to).value; Owned(bs[id := b'], k') && SameHoldsElsewhere(k, k', id)
  {
    var k' := LeaveHold(k, h, to).value;
    var bs' := bs[id := b'];
    forall g | g in k'.holds
      ensures HoldOwned(bs', k'.holds[g])
    {
      assert HoldOwned(bs, k.holds[g]);
      if g != h && k.holds[g].status == Active { assert k.holds[g].booking != id; }
    }
    PendingOwnsNoAllocation(bs, k, k', id, b');
    forall b | b != id
      ensures HasHold(k, b) <==> HasHold(k', b)
    {
      HoldUntouched(k, k', b, h);
    }
  }

  lemma PendingOwnsNoAllocation(bs: map<Id, Booking>, k: Stock, k': Stock, id: Id, b': Booking)
    requires AllocationsOwned(bs, k) && k'.allocations == k.allocations && id in bs && IsPending(bs[id].status) && !Live(b'.status)
    ensures AllocationsOwned(bs[id := b'], k')
  {
    var bs' := bs[id := b'];
    forall a | a in k'.allocations
      ensures AllocationOwned(bs', k'.allocations[a])
    {
      assert AllocationOwned(bs, k.allocations[a]);
    }
    forall b | b in bs' && bs'[b].recordType == Canonical && Live(bs'[b].status)
      ensures HasAllocation(k', b)
    {
      assert HasAllocation(k, b);
      var a :| a in k.allocations && k.allocations[a].booking == b && k.allocations[a].status == AllocationConfirmed;
      assert a in k'.allocations;
    }
  }

  /** A pending booking without a hold can be closed too: that is how expiry treats it. */
  lemma ClosesWithoutHold(bs: map<Id, Booking>, k: Stock, id: Id, b': Booking)
    requires Owned(bs, k) && id in bs && IsPending(bs[id].status) && bs[id].recordType == b'.recordType == Canonical && Closed(b')
    requires !HasHold(k, id)
    ensures Owned(bs[id := b'], k)
  {
    var bs' := bs[id := b'];
    forall g | g in k.holds
      ensures HoldOwned(bs', k.holds[g])
    {
      assert HoldOwned(bs, k.holds[g]);
    }
    PendingOwnsNoAllocation(bs, k, k, id, b');
  }

  /** Cancelling a confirmed booking frees its one allocation. */
  lemma FreeCloses(bs: map<Id, Booking>, k: Stock, id: Id, b': Booking, a: Id)
    requires Owned(bs, k) && id in bs && Live(bs[id].status) && bs[id].recordType == b'.recordType == Canonical && Closed(b')
    requires a in ConfirmedAllocations(k, id) && ReleaseAllocation(k, a).Commit?
    ensures var k' := ReleaseAllocation(k, a).value; Owned(bs[id := b'], k') && SameHoldsElsewhere(k, k', id)
  {
    var k' := ReleaseAllocation(k, a).value;
    var bs' := bs[id := b'];
    forall g | g in k'.holds
      ensures HoldOwned(bs', k'.holds[g])
    {
      assert HoldOwned(bs, k.holds[g]);
    }
    forall c | c in k'.allocations
      ensures AllocationOwned(bs', k'.allocations[c])
    {
      assert AllocationOwned(bs, k.allocations[c]);
      if c != a && k.allocations[c].status == AllocationConfirmed { assert k.allocations[c].booking != id; }
    }
    forall b | b in bs' && bs'[b].recordType == Canonical && Live(bs'[b].status)
      ensures HasAllocation(k', b)
    {
      assert HasAllocation(k, b);
      var c :| c in k.allocations && k.allocations[c].booking == b && k.allocations[c].status == AllocationConfirmed;
      assert c in k'.allocations && k'.allocations[c] == k.allocations[c];
    }
    forall b | b != id
      ensures HasHold(k, b) <==> HasHold(k', b)
    {
      assert k'.holds == k.holds;
    }
  }

  // ---------- confirming ----------

  lemma ConversionShape(k: Stock, h: Id, aid: Id, now: int, site: Site)
    requires ConvertHold(k, h, aid, now, site).Commit? && h in k.holds && k.holds[h].status == Active
    ensures var k' := ConvertHold(k, h, aid, now, site).value;
            && k'.holds == k.holds[h := k.holds[h].(status := Converted)]
            && aid !in k.allocations
            && k'.allocations == k.allocations[aid := Allocation(k.holds[h].session, k.holds[h].booking, k.holds[h].quantity, Some(h), AllocationConfirmed)]
  {
  }

  /** A booking gains its allocation. */
  lemma AllocationGained(bs: map<Id, Booking>, k: Stock, k': Stock, id: Id, b': Booking, aid: Id)
    requires AllocationsOwned(bs, k) && (id in bs ==> !Live(bs[id].status)) && b'.recordType == Canonical && Live(b'.status)
    requires aid !in k.allocations && aid in k'.allocations && k'.allocations == k.allocations[aid := k'.allocations[aid]]
    requires k'.allocations[aid].booking == id && k'.allocations[aid].status == AllocationConfirmed
    ensures AllocationsOwned(bs[id := b'], k')
  {
    var bs' := bs[id := b'];
    forall c | c in k'.allocations
      ensures AllocationOwned(bs', k'.allocations[c])
    {
      if c != aid { assert AllocationOwned(bs, k.allocations[c]); }
    }
    forall a, c | a in k'.allocations && c in k'.allocations && k'.allocations[a].status == AllocationConfirmed
                  && k'.allocations[c].status == AllocationConfirmed && k'.allocations[a].booking == k'.allocations[c].booking
      ensures a == c
    {
      if a != aid { assert AllocationOwned(bs, k.allocations[a]); }
      if c != aid { assert AllocationOwned(bs, k.allocations[c]); }
    }
    forall b | b in bs' && bs'[b].recordType == Canonical && Live(bs'[b].status)
      ensures HasAllocation(k', b)
    {
      if b == id {
        assert k'.allocations[aid].booking == id;
      } else {
        assert HasAllocation(k, b);
        var c :| c in k.allocations && k.allocations[c].booking == b && k.allocations[c].status == AllocationConfirmed;
        assert c in k'.allocations && k'.allocations[c] == k.allocations[c];
      }
    }
  }

  lemma ConversionConfirms(bs: map<Id, Booking>, k: Stock, id: Id, b': Booking, h: Id, aid: Id, now: int, site: Site)
    requires Owned(bs, k) && id in bs && IsPending(bs[id].status) && bs[id].recordType == b'.recordType == Canonical
    requires b'.status == BookingStatus.Confirmed
    requires h in ActiveHolds(k, id) && ConvertHold(k, h, aid, now, site).Commit?
    ensures var k' := ConvertHold(k, h, aid, now, site).value; Owned(bs[id := b'], k') && SameHoldsElsewhere(k, k', id)
  {
    var k' := ConvertHold(k, h, aid, now, site).value;
    var bs' := bs[id := b'];
    ConversionShape(k, h, aid, now, site);
    forall g | g in k'.holds
      ensures HoldOwned(bs', k'.holds[g])
    {
      assert HoldOwned(bs, k.holds[g]);
      if g != h && k.holds[g].status == Active { assert k.holds[g].booking != id; }
    }
    AllocationGained(bs, k, k', id, b', aid);
    forall b | b != id
      ensures HasHold(k, b) <==> HasHold(k', b)
    {
      HoldUntouched(k, k', b, h);
    }
  }

  // ---------- new bookings ----------

  lemma HoldGained(bs: map<Id, Booking>, k: Stock, k': Stock, id: Id, h: Id)
    requires HoldsOwned(bs, k) && !HasHold(k, id)
    requires h !in k.holds && h in k'.holds && k'.holds == k.holds[h := k'.holds[h]] && k'.holds[h].status == Active
    requires k'.holds[h].booking == id && HoldOwned(bs, k'.holds[h])
    ensures HoldsOwned(bs, k') && HasHold(k', id) && SameHoldsElsewhere(k, k', id)
  {
    forall g | g in k'.holds
      ensures HoldOwned(bs, k'.holds[g])
    {
      if g != h { assert HoldOwned(bs, k.holds[g]); }
    }
    forall b | b != id
      ensures HasHold(k, b) <==> HasHold(k', b)
    {
      if HasHold(k, b) {
        var g :| g in k.holds && k.holds[g].booking == b && k.holds[g].status == Active;
        assert g in k'.holds && k'.holds[g] == k.holds[g];
      }
      if HasHold(k', b) {
        var g :| g in k'.holds && k'.holds[g].booking == b && k'.holds[g].status == Active;
        assert g in k.holds && k'.holds[g] == k.holds[g];
      }
    }
  }

  lemma NewcomerOwnsNothing(bs: map<Id, Booking>, k: Stock, id: Id, b': Booking)
    requires Owned(bs, k) && id !in bs
    ensures HoldsOwned(bs[id := b'], k) && !HasHold(k, id)
    ensures !Live(b'.status) ==> AllocationsOwned(bs[id := b'], k)
  {
    var bs' := bs[id := b'];
    forall g | g in k.holds
      ensures HoldOwned(bs', k.holds[g])
    {
      assert HoldOwned(bs, k.holds[g]);
    }
    forall a | a in k.allocations
      ensures AllocationOwned(bs', k.allocations[a])
    {
      assert AllocationOwned(bs, k.allocations[a]);
    }
  }

  /** A new booking's reference key is unused, so its hold is really placed. */
  lemma HoldCreates(bs: map<Id, Booking>, k: Stock, id: Id, b': Booking, hid: Id, session: Id, quantity: int, expiresAt: int, now: int, site: Site)
    requires Owned(bs, k) && id !in bs && IsPending(b'.status) && b'.recordType == Canonical && b'.dueAt == Some(expiresAt)
    requires PlaceHold(k, hid, session, id, quantity, expiresAt, BookingReference(id), now, site).Commit?
    ensures var (k', h) := PlaceHold(k, hid, session, id, quantity, expiresAt, BookingReference(id), now, site).value;
            Owned(bs[id := b'], k') && HasHold(k', id) && SameHoldsElsewhere(k, k', id)
  {
    var (k', h) := PlaceHold(k, hid, session, id, quantity, expiresAt, BookingReference(id), now, site).value;
    NewcomerOwnsNothing(bs, k, id, b');
    forall e
      ensures !Filed(k, session, BookingReference(id), e)
    {
      assert e in k.holds ==> HoldOwned(bs, k.holds[e]);
    }
    HoldGained(bs[id := b'], k, k', id, hid);
    assert k'.allocations == k.allocations;
  }

  lemma AllocationCreates(bs: map<Id, Booking>, k: Stock, id: Id, b': Booking, aid: Id, session: Id, quantity: int, site: Site)
    requires Owned(bs, k) && id !in bs && b'.status == BookingStatus.Confirmed && b'.recordType == Canonical
    requires AllocateDirectly(k, aid, session, id, quantity, site).Commit?
    ensures var k' := AllocateDirectly(k, aid, session, id, quantity, site).value;
            Owned(bs[id := b'], k') && SameHoldsElsewhere(k, k', id)
  {
    var k' := AllocateDirectly(k, aid, session, id, quantity, site).value;
    NewcomerOwnsNothing(bs, k, id, b');
    forall a | a in k.allocations
      ensures k.allocations[a].booking != id
    {
      assert AllocationOwned(bs, k.allocations[a]);
    }
    AllocationGained(bs, k, k', id, b', aid);
    assert k'.holds == k.holds;
  }

  // ---------- automatic failover ----------

  /** The reference key of this failover has never been used: the guard of the branch that hands an old hold back. */
  ghost predicate FreshKey(k: Stock, id: Id, f: Failover) {
    forall e :: !Filed(k, f.session, FailoverReference(id, f.plan), e)
  }

  lemma CurrentReleased(bs: map<Id, Booking>, k: Stock, id: Id, b': Booking, current: Id)
    requires Owned(bs, k) && id in bs && IsPending(bs[id].status) && IsPending(b'.status)
    requires bs[id].recordType == b'.recordType == Canonical
    requires current in ActiveHolds(k, id) && LeaveHold(k, current, Released).Commit?
    ensures var k' := LeaveHold(k, current, Released).value;
            Owned(bs[id := b'], k') && !HasHold(k', id) && SameHoldsElsewhere(k, k', id)
  {
    var k' := LeaveHold(k, current, Released).value;
    var bs' := bs[id := b'];
    forall g | g in k'.holds
      ensures HoldOwned(bs', k'.holds[g])
    {
      assert HoldOwned(bs, k.holds[g]);
    }
    PendingOwnsNoAllocation(bs, k, k', id, b');
    forall b | b != id
      ensures HasHold(k, b) <==> HasHold(k', b)
    {
      HoldUntouched(k, k', b, current);
    }
  }

  ghost function PlacedIn(k: Stock, id: Id, f: Failover, now: int): Tx<(Stock, Id)> {
    PlaceHold(k, f.hold, f.session, id, f.quantity, FailoverDue(f, now).GetOr(now + 60000), FailoverReference(id, f.plan), f.clock, f.site)
  }

  /** The three writes, one after another. */
  lemma FailoverParts(k: Stock, id: Id, current: Id, f: Failover, now: int)
    requires FailoverStock(k, id, current, f, now).Commit?
    ensures PlacedIn(k, id, f, now).Commit?
    ensures var (k1, h) := PlacedIn(k, id, f, now).value;
            && LeaveHold(k1, current, Released).Commit?
            && FailoverStock(k, id, current, f, now).value.1 == h
            && var k2 := LeaveHold(k1, current, Released).value;
               if f.mode == Instant
               then ConvertHold(k2, h, f.allocation, f.clock, f.site) == Commit(FailoverStock(k, id, current, f, now).value.0)
               else k2 == FailoverStock(k, id, current, f, now).value.0
  {
  }

  /** Placing first and releasing second leaves what releasing first and placing second would. */
  lemma PlaceThenRelease(k: Stock, id: Id, current: Id, f: Failover, now: int)
    requires StockValid(k) && current in ActiveHolds(k, id) && FreshKey(k, id, f) && PlacedIn(k, id, f, now).Commit?
    ensures LeaveHold(k, current, Released).Commit? && PlacedIn(k, id, f, now).value.1 == f.hold
    ensures var (k1, kr) := (PlacedIn(k, id, f, now).value.0, LeaveHold(k, current, Released).value);
            && LeaveHold(k1, current, Released).Commit?
            && var k2 := LeaveHold(k1, current, Released).value;
               && f.hold !in kr.holds && f.hold in k2.holds && k2.holds == kr.holds[f.hold := k2.holds[f.hold]]
               && k2.allocations == kr.allocations && k2.holds[f.hold].status == Active
               && k2.holds[f.hold].booking == id && k2.holds[f.hold].reference == FailoverReference(id, f.plan)
               && k2.holds[f.hold].expiresAt == FailoverDue(f, now).GetOr(now + 60000)
  {
    hide StockValid;
    assert StockValid(k) ==> k.holds[current].session in k.counters by { SessionsKnown(k, current); }
    var k1, kr := PlacedIn(k, id, f, now).value.0, LeaveHold(k, current, Released).value;
    var k2 := LeaveHold(k1, current, Released).value;
    assert k2.holds == kr.holds[f.hold := k1.holds[f.hold]];
  }

  lemma SessionsKnown(k: Stock, h: Id)
    requires StockValid(k) && h in k.holds
    ensures k.holds[h].session in k.counters
  {
  }

  lemma FreshFailoverHolds(bs: map<Id, Booking>, k: Stock, id: Id, b': Booking, current: Id, f: Failover, now: int)
    requires Owned(bs, k) && StockValid(k) && id in bs && IsPending(bs[id].status) && IsPending(b'.status)
    requires bs[id].recordType == b'.recordType == Canonical
    requires current in ActiveHolds(k, id) && FreshKey(k, id, f) && b'.dueAt == Some(FailoverDue(f, now).GetOr(now + 60000))
    requires PlacedIn(k, id, f, now).Commit?
    ensures PlacedIn(k, id, f, now).value.1 == f.hold
    ensures var k1 := PlacedIn(k, id, f, now).value.0;
            && LeaveHold(k1, current, Released).Commit?
            && var k2 := LeaveHold(k1, current, Released).value;
               && Owned(bs[id := b'], k2) && HasHold(k2, id) && SameHoldsElsewhere(k, k2, id) && f.hold in ActiveHolds(k2, id)
  {
    PlaceThenRelease(k, id, current, f, now);
    CurrentReleased(bs, k, id, b', current);
    hide PlacedIn, LeaveHold, StockValid, AllocationsOwned, FreshKey, HasHold;
    var kr := LeaveHold(k, current, Released).value;
    var k2 := LeaveHold(PlacedIn(k, id, f, now).value.0, current, Released).value;
    HoldGained(bs[id := b'], kr, k2, id, f.hold);
    SameAllocations(bs[id := b'], kr, k2);
  }

  lemma SameAllocations(bs: map<Id, Booking>, k: Stock, k': Stock)
    requires AllocationsOwned(bs, k) && k'.allocations == k.allocations
    ensures AllocationsOwned(bs, k')
  {
    forall b | b in bs && bs[b].recordType == Canonical && Live(bs[b].status)
      ensures HasAllocation(k', b)
    {
      assert HasAllocation(k, b);
      var a :| a in k.allocations && k.allocations[a].booking == b && k.allocations[a].status == AllocationConfirmed;
      assert a in k'.allocations;
    }
  }

  /** With a used key an old hold comes back, which is never active: an instant failover aborts, any other
      leaves the booking pending without a hold. */
  lemma UsedFailoverHolds(bs: map<Id, Booking>, k: Stock, id: Id, b': Booking, current: Id, f: Failover, now: int)
    requires Owned(bs, k) && id in bs && IsPending(bs[id].status) && IsPending(b'.status)
    requires bs[id].recordType == b'.recordType == Canonical
    requires current in ActiveHolds(k, id) && !FreshKey(k, id, f)
    requires FailoverStock(k, id, current, f, now).Commit?
    ensures f.mode != Instant
    ensures var k2 := FailoverStock(k, id, current, f, now).value.0;
            Owned(bs[id := b'], k2) && !HasHold(k2, id) && SameHoldsElsewhere(k, k2, id)
  {
    FailoverParts(k, id, current, f, now);
    var (k1, h) := PlacedIn(k, id, f, now).value;
    assert k1 == k && Filed(k, f.session, FailoverReference(id, f.plan), h);
    assert HoldOwned(bs, k.holds[h]);
    CurrentReleased(bs, k, id, b', current);
  }

  lemma FreshInstantFailover(bs: map<Id, Booking>, k: Stock, id: Id, b': Booking, current: Id, f: Failover, now: int)
    requires Owned(bs, k) && StockValid(k) && id in bs && IsPending(bs[id].status)
    requires bs[id].recordType == b'.recordType == Canonical && b'.status == BookingStatus.Confirmed && f.mode == Instant
    requires current in ActiveHolds(k, id) && FreshKey(k, id, f) && FailoverStock(k, id, current, f, now).Commit?
    ensures var k' := FailoverStock(k, id, current, f, now).value.0; Owned(bs[id := b'], k') && SameHoldsElsewhere(k, k', id)
  {
    hide Owned, StockValid, PlacedIn, LeaveHold, ConvertHold, FailoverStock, FreshKey, HasHold;
    var p := b'.(status := PendingVendor, dueAt := Some(now + 60000));
    FailoverParts(k, id, current, f, now);
    FreshFailoverHolds(bs, k, id, p, current, f, now);
    var k2 := LeaveHold(PlacedIn(k, id, f, now).value.0, current, Released).value;
    ConversionConfirms(bs[id := p], k2, id, b', f.hold, f.allocation, f.clock, f.site);
    assert bs[id := p][id := b'] == bs[id := b'];
  }

  lemma FreshPendingFailover(bs: map<Id, Booking>, k: Stock, id: Id, b': Booking, current: Id, f: Failover, now: int)
    requires Owned(bs, k) && StockValid(k) && id in bs && IsPending(bs[id].status)
    requires bs[id].recordType == b'.recordType == Canonical && IsPending(b'.status) && f.mode != Instant && b'.dueAt == FailoverDue(f, now)
    requires current in ActiveHolds(k, id) && FreshKey(k, id, f) && FailoverStock(k, id, current, f, now).Commit?
    ensures var k' := FailoverStock(k, id, current, f, now).value.0;
            Owned(bs[id := b'], k') && SameHoldsElsewhere(k, k', id) && HasHold(k', id)
  {
    FailoverParts(k, id, current, f, now);
    FreshFailoverHolds(bs, k, id, b', current, f, now);
  }

  /** Every committed failover keeps ownership, and the booking keeps an active hold exactly when it stays pending
      under a fresh key. */
  lemma FailoverKeepsOwnership(bs: map<Id, Booking>, k: Stock, id: Id, b': Booking, current: Id, f: Failover, now: int)
    requires Owned(bs, k) && StockValid(k) && id in bs && IsPending(bs[id].status)
    requires bs[id].recordType == b'.recordType == Canonical && b'.status == StatusFor(f.mode) && b'.dueAt == FailoverDue(f, now)
    requires current in ActiveHolds(k, id) && FailoverStock(k, id, current, f, now).Commit?
    ensures var k' := FailoverStock(k, id, current, f, now).value.0;
            && Owned(bs[id := b'], k') && SameHoldsElsewhere(k, k', id)
            && (f.mode != Instant ==> (HasHold(k', id) <==> FreshKey(k, id, f)))
            && (f.mode == Instant ==> FreshKey(k, id, f))
  {
    if FreshKey(k, id, f) {
      if f.mode == Instant {
        FreshInstantFailover(bs, k, id, b', current, f, now);
      } else {
        FreshPendingFailover(bs, k, id, b', current, f, now);
      }
    } else {
      UsedFailoverHolds(bs, k, id, if f.mode == Instant then b'.(status := PendingVendor) else b', current, f, now);
    }
  }
}
