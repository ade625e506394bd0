/** The booking store: every transaction that touches a booking, its capacity or its money, as one atomic step. */
module Store {
  import opened Wrappers
  import opened Text
  import opened Policy
  import opened RequestFingerprint
  import opened Terms
  import opened Stock
  import opened EventKeys
  import opened Ledger

  type Id = string

  datatype State = State(bookings: map<Id, Booking>, stock: Stock, ledger: Ledger, outbox: seq<Message>)

  datatype Role = TravelAgent | VendorUser | AdminUser

  datatype User = User(sub: Id, role: Role, tenant: Option<Id>)

  predicate HasTenant(u: User) {
    u.tenant.Some? && u.tenant.value != ""
  }

  // ---------- capacity of one booking ----------

  function ActiveHolds(k: Stock, b: Id): set<Id> {
    set h | h in k.holds && k.holds[h].booking == b && k.holds[h].status == Active
  }

  function ConfirmedAllocations(k: Stock, b: Id): set<Id> {
    set a | a in k.allocations && k.allocations[a].booking == b && k.allocations[a].status == AllocationConfirmed
  }

  /** The first active hold of a booking, if any. */
  ghost function FindActive(k: Stock, b: Id): Option<Id> {
    if h :| h in ActiveHolds(k, b) then Some(h) else None
  }

  /** A cancelled booking gives back its one allocation or its one hold; none or several is an error. */
  ghost function GiveBack(k: Stock, b: Id, status: BookingStatus): Tx<(Stock, Message)> {
    if status == BookingStatus.Confirmed then
      var found := ConfirmedAllocations(k, b);
      if found == {} then Abort(AllocationMissing)
      else if |found| > 1 then Abort(AllocationAmbiguous)
      else
        var a :| a in found;
        var k1 :- ReleaseAllocation(k, a);
        Commit((k1, StockMessage(AllocationFreed, a)))
    else
      var found := ActiveHolds(k, b);
      if found == {} then Abort(HoldMissing)
      else if |found| > 1 then Abort(HoldAmbiguous)
      else
        var h :| h in found;
        var k1 :- LeaveHold(k, h, Released);
        Commit((k1, StockMessage(HoldReleased, h)))
  }

  function Moved(b: Booking, status: BookingStatus): Booking {
    b.(status := status, version := b.version + 1)
  }

  // ---------- cancelling ----------

  datatype AgentRequest = AgentRequest(
    user: User, booking: Id, key: string, category: string, reason: string, acknowledged: bool, expected: string)

  /** The clock, the local date in the booking's zone and the ids the database would draw. */
  datatype Draw = Draw(now: int, today: Day, cancellation: Id, refund: Id)

  function AgentRefusal(r: AgentRequest): Option<Error> {
    if r.user.role != TravelAgent || !HasTenant(r.user) then Some(Forbidden)
    else if Trim(r.key) == "" then Some(IdempotencyKeyRequired)
    else if Trim(r.reason) == "" then Some(ReasonRequired)
    else if !r.acknowledged then Some(AckRequired)
    else None
  }

  function RequestHash(booking: Id, key: string, category: string, reason: string): string {
    HashOf(RequestFields(booking, key, category, Trim(reason)))
  }

  function AgentHash(r: AgentRequest): string {
    RequestHash(r.booking, Trim(r.key), r.category, r.reason)
  }

  /** The agent's own cancellation under the same key, read without a lock. */
  function AgentDuplicate(s: State, r: AgentRequest): Option<Id> {
    if r.booking in s.ledger.cancellationOf && r.booking in s.bookings && Some(s.bookings[r.booking].agent) == r.user.tenant then
      var cid := s.ledger.cancellationOf[r.booking];
      if cid in s.ledger.cancellations && s.ledger.cancellations[cid].facts.key == Some(Trim(r.key)) then Some(cid) else None
    else None
  }

  function AnswerDuplicate(s: State, r: AgentRequest, cid: Id): Tx<Id>
    requires cid in s.ledger.cancellations
  {
    if s.ledger.cancellations[cid].facts.requestFingerprint != AgentHash(r) then Abort(IdempotencyKeyReused) else Commit(cid)
  }

  /** What the unlocked pre-read answers, if anything. */
  function AgentPreRead(s: State, r: AgentRequest): Option<Tx<Id>> {
    var found := AgentDuplicate(s, r);
    if found.Some? && found.value in s.ledger.cancellations then Some(AnswerDuplicate(s, r, found.value)) else None
  }

  function AgentCancellation(b: Booking, c: Calculation, r: AgentRequest, now: int): Cancellation
    requires c.Eligible?
  {
    Cancellation(r.booking,
                 Facts(Agent, r.user.sub, r.user.tenant, r.category, Trim(r.reason), now, c.timezone, b.serviceDay, c.cancelDay,
                       c.daysBefore, c.policyFingerprint, c.rule, Some(Trim(r.key)), AgentHash(r)),
                 c.bookingAmount, c.currency, c.charge, c.refund,
                 if b.status == BookingStatus.Confirmed then c.state else PendingFinancial, None)
  }

  /** The writes shared by every cancellation: capacity back, rows and events, booking closed, message out. */
  ghost function Close(s: State, id: Id, c: Cancellation, cid: Id, rid: Id): Tx<State>
    requires id in s.bookings
  {
    var b := s.bookings[id];
    var (stock1, freed) :- GiveBack(s.stock, id, b.status);
    var (ledger1, news) :- Record(s.ledger, b.vendor, cid, c, rid);
    Commit(State(s.bookings[id := Moved(b, BookingStatus.Cancelled)], stock1, ledger1,
                 s.outbox + [freed] + news + [BookingCancelled(id, c.facts.initiator, c.state)]))
  }

  /** The agent's transaction, under the booking's row lock. */
  ghost function AgentTx(s: State, r: AgentRequest, d: Draw): Tx<(State, Id)> {
    if r.booking !in s.bookings || Some(s.bookings[r.booking].agent) != r.user.tenant then Abort(NotFound)
    else if r.booking in s.ledger.cancellationOf then Commit((s, s.ledger.cancellationOf[r.booking]))
    else
      var b := s.bookings[r.booking];
      if b.recordType != Canonical then Abort(LegacyOnly)
      else if !Cancellable(b.status) then Abort(NotCancellable)
      else
        var c := CalculationFor(r.booking, b, d.now, d.today);
        if c.Ineligible? then Abort(c.reason)
        else if r.expected != c.fingerprint then Abort(TermsChanged)
        else
          var s1 :- Close(s, r.booking, AgentCancellation(b, c, r, d.now), d.cancellation, d.refund);
          Commit((s1, d.cancellation))
  }

  datatype OperationalRequest = OperationalRequest(
    user: User, booking: Id, key: Option<string>, category: string, reason: string, initiator: Initiator)

  function OperationalRefusal(r: OperationalRequest): Option<Error> {
    if Trim(r.reason) == "" then Some(ReasonRequired)
    else if r.initiator == Vendor && (r.user.role != VendorUser || !HasTenant(r.user)) then Some(Forbidden)
    else None
  }

  /** The tenant a vendor is confined to; an administrator is not confined. */
  predicate MayTouch(r: OperationalRequest, b: Booking) {
    r.initiator != Vendor || Some(b.vendor) == r.user.tenant
  }

  function OperationalPreRead(s: State, r: OperationalRequest): Option<Id> {
    if r.booking in s.ledger.cancellationOf && r.booking in s.bookings && MayTouch(r, s.bookings[r.booking])
    then Some(s.ledger.cancellationOf[r.booking]) else None
  }

  function OperationalKey(r: OperationalRequest): Option<string> {
    if r.key.Some? && Trim(r.key.value) != "" then Some(Trim(r.key.value)) else None
  }

  function OperationalCancellation(b: Booking, r: OperationalRequest, d: Draw): Cancellation {
    Cancellation(r.booking,
                 Facts(r.initiator, r.user.sub, if r.initiator == Vendor then r.user.tenant else None, r.category, Trim(r.reason), d.now,
                       Timezone(b), b.serviceDay, d.today, Calendar.DateDifference(b.serviceDay, d.today), None, None, OperationalKey(r),
                       RequestHash(r.booking, OperationalKey(r).GetOr("operational"), r.category, r.reason)),
                 b.amount, b.currency, 0, 0, PendingFinancial, None)
  }

  /** A vendor's or administrator's transaction, under the booking's row lock. */
  ghost function OperationalTx(s: State, r: OperationalRequest, d: Draw): Tx<(State, Id)> {
    if r.booking !in s.bookings || !MayTouch(r, s.bookings[r.booking]) then Abort(NotFound)
    else
      var b := s.bookings[r.booking];
      if b.recordType != Canonical then Abort(LegacyOnly)
      else if r.booking in s.ledger.cancellationOf then Commit((s, s.ledger.cancellationOf[r.booking]))
      else if !Cancellable(b.status) then Abort(NotCancellable)
      else
        var s1 :- Close(s, r.booking, OperationalCancellation(b, r, d), d.cancellation, d.refund);
        Commit((s1, d.cancellation))
  }

  // ---------- money ----------

  function VendorOf(s: State, b: Id): Id {
    if b in s.bookings then s.bookings[b].vendor else ""
  }

  function WithEntry(s: State, entry: Entry): Tx<State> {
    var (ledger1, news) :- entry;
    Commit(s.(ledger := ledger1, outbox := s.outbox + news))
  }

  datatype ResolutionRequest = ResolutionRequest(user: User, cancellation: Id, charge: string, refund: string, reason: string)

  function ResolveTx(s: State, r: ResolutionRequest, rid: Id): Tx<State> {
    var charge, refund := ParseMoney(r.charge), ParseMoney(r.refund);
    if Trim(r.reason) == "" then Abort(ReasonRequired)
    else if charge.None? || refund.None? then Abort(MoneyMalformed)
    else if r.cancellation !in s.ledger.cancellations then Abort(NotFound)
    else WithEntry(s, Resolve(s.ledger, VendorOf(s, s.ledger.cancellations[r.cancellation].booking), r.cancellation,
                              charge.value, refund.value, Trim(r.reason), rid, r.user.sub))
  }

  /** The action as the endpoint passes it on: trimmed, and refused when its text is blank. */
  function RefundActionFor(a: RefundAction): Tx<RefundAction> {
    match a
    case ConfirmWith(reference) => if Trim(reference) == "" then Abort(RefundReferenceRequired) else Commit(ConfirmWith(Trim(reference)))
    case FailWith(reason) => if Trim(reason) == "" then Abort(ReasonRequired) else Commit(FailWith(Trim(reason)))
    case Retry => Commit(Retry)
  }

  function RefundTx(s: State, user: User, rid: Id, a: RefundAction): Tx<State> {
    var action :- RefundActionFor(a);
    var vendor := if rid in s.ledger.refunds then VendorOf(s, s.ledger.refunds[rid].booking) else "";
    WithEntry(s, Transition(s.ledger, vendor, rid, action, user.sub))
  }

  // ---------- the rest of a booking's life ----------

  datatype Mode = Instant | VendorConfirmation | ManualOnRequest

  function StatusFor(m: Mode): BookingStatus {
    match m
    case Instant => BookingStatus.Confirmed
    case VendorConfirmation => PendingVendor
    case ManualOnRequest => PendingManual
  }

  function ConfirmedEvent(b: Booking, id: Id): FinancialEvent {
    FinancialEvent(BookingConfirmedEvent, Posted, id, b.vendor, None, None, b.currency, Some(b.amount), Note(None, None, None))
  }

  /** What booking creation has settled before it writes: the quote, the accepted policy and the slot. */
  datatype NewBooking = NewBooking(
    id: Id, agent: Id, vendor: Id, mode: Mode, economics: Economics, snapshot: Snapshot, timezone: Option<string>,
    serviceDay: Day, session: Id, quantity: int, slaMinutes: int, now: int, clock: int, hold: Id, allocation: Id, site: Site)

  function BookingOf(n: NewBooking): Booking {
    Booking(Canonical, StatusFor(n.mode), 1, n.agent, n.vendor, n.economics.finalAmount, n.economics.currency,
            if n.mode == Instant then None else Some(n.now + n.slaMinutes * 60000), n.timezone, n.serviceDay, Some(n.snapshot), Some(n.economics))
  }

  ghost function CreateTx(s: State, n: NewBooking): Tx<State> {
    if n.id in s.bookings then Abort(UniqueViolation)
    else if n.vendor == "" then Abort(NotFound)
    else if !Accepted(n.snapshot.rules) then Abort(PolicyInvalid)
    else if n.mode != Instant && n.slaMinutes <= 0 then Abort(ValueInvalid)
    else
      var b := BookingOf(n);
      if n.mode == Instant then
        var k1 :- AllocateDirectly(s.stock, n.allocation, n.session, n.id, n.quantity, n.site);
        var l1 :- Post(s.ledger, BookingConfirmedKey(n.id), ConfirmedEvent(b, n.id));
        Commit(State(s.bookings[n.id := b], k1, l1,
                     s.outbox + [StockMessage(AllocationMade, n.allocation), BookingMessage(Created, n.id), BookingMessage(BookingNews.BookingConfirmed, n.id)]))
      else
        var (k1, h) :- PlaceHold(s.stock, n.hold, n.session, n.id, n.quantity, b.dueAt.value, BookingReference(n.id), n.clock, n.site);
        Commit(State(s.bookings[n.id := b], k1, s.ledger, s.outbox + [StockMessage(HoldPlaced, h), BookingMessage(Created, n.id)]))
  }

  /** Confirmation expiry: the active hold, if there is one, expires with the booking. */
  ghost function ExpireLocked(s: State, id: Id): Tx<State>
    requires id in s.bookings
  {
    var found := FindActive(s.stock, id);
    var k1 :- if found.Some? then LeaveHold(s.stock, found.value, HoldStatus.Expired) else Commit(s.stock);
    Commit(s.(bookings := s.bookings[id := Moved(s.bookings[id], BookingStatus.ConfirmationExpired)], stock := k1,
              outbox := s.outbox + (if found.Some? then [StockMessage(HoldExpired, found.value)] else [])
                        + [BookingMessage(BookingExpired, id)]))
  }

  datatype Decider = ByVendor(tenant: Id) | ByAdmin

  predicate MayDecide(decider: Decider, b: Booking) {
    b.recordType == Canonical && b.status == if decider.ByVendor? then PendingVendor else PendingManual
  }

  predicate Overdue(b: Booking, now: int) {
    b.dueAt.None? || now >= b.dueAt.value
  }

  ghost function ConfirmTx(s: State, id: Id, decider: Decider, now: int, clock: int, allocation: Id, site: Site): Tx<State> {
    if id !in s.bookings || (decider.ByVendor? && s.bookings[id].vendor != decider.tenant) then Abort(NotFound)
    else
      var b := s.bookings[id];
      if !MayDecide(decider, b) then Abort(WrongStatus)
      else if Overdue(b, now) then ExpireLocked(s, id)
      else
        var found := FindActive(s.stock, id);
        if found.None? then Abort(HoldMissing)
        else
          var k1 :- ConvertHold(s.stock, found.value, allocation, clock, site);
          var b1 := Moved(b, BookingStatus.Confirmed);
          var l1 :- Post(s.ledger, BookingConfirmedKey(id), ConfirmedEvent(b1, id));
          Commit(State(s.bookings[id := b1], k1, l1,
                       s.outbox + [StockMessage(HoldConverted, found.value), BookingMessage(BookingNews.BookingConfirmed, id)]))
  }

  /** The replacement supplier an automatic failover picked, with the quote and policy it was picked for; a dearer quote is
      absorbed, so the booking keeps its amount. */
  datatype Failover = Failover(
    plan: Id, vendor: Id, mode: Mode, economics: Economics, snapshot: Snapshot, timezone: Option<string>,
    serviceDay: Day, session: Id, quantity: int, lockMinutes: int, clock: int, hold: Id, allocation: Id, site: Site)

  function FailoverDue(f: Failover, now: int): Option<int> {
    if f.mode == Instant then None else Some(now + f.lockMinutes * 60000)
  }

  function FailedOverBooking(b: Booking, f: Failover, now: int): Booking {
    b.(vendor := f.vendor, status := StatusFor(f.mode), version := b.version + 1,
       amount := if f.economics.finalAmount > b.amount then b.amount else f.economics.finalAmount, currency := f.economics.currency,
       dueAt := FailoverDue(f, now), timezone := f.timezone, serviceDay := f.serviceDay,
       snapshot := Some(f.snapshot), economics := Some(f.economics))
  }

  /** Place the replacement hold, release the current one and, for an instant supplier, convert at once. */
  ghost function FailoverStock(k: Stock, id: Id, current: Id, f: Failover, now: int): Tx<(Stock, Id)> {
    var (k1, h) :- PlaceHold(k, f.hold, f.session, id, f.quantity, FailoverDue(f, now).GetOr(now + 60000),
                             FailoverReference(id, f.plan), f.clock, f.site);
    var k2 :- LeaveHold(k1, current, Released);
    if f.mode == Instant then
      var k3 :- ConvertHold(k2, h, f.allocation, f.clock, f.site);
      Commit((k3, h))
    else Commit((k2, h))
  }

  ghost function FailoverTx(s: State, id: Id, f: Failover, now: int): Tx<State>
    requires id in s.bookings
  {
    var found := FindActive(s.stock, id);
    if found.None? then Abort(HoldMissing)
    else if f.vendor == "" || !Accepted(f.snapshot.rules) then Abort(PolicyInvalid)
    else
      var (k1, h) :- FailoverStock(s.stock, id, found.value, f, now);
      Commit(s.(bookings := s.bookings[id := FailedOverBooking(s.bookings[id], f, now)], stock := k1,
                outbox := s.outbox + [StockMessage(HoldPlaced, h), StockMessage(HoldReleased, found.value), BookingMessage(FailedOver, id)]))
  }

  ghost function RejectTx(s: State, id: Id, decider: Decider, reason: string, now: int, failover: Option<Failover>): Tx<State> {
    if Trim(reason) == "" then Abort(ReasonRequired)
    else if id !in s.bookings || (decider.ByVendor? && s.bookings[id].vendor != decider.tenant) then Abort(NotFound)
    else
      var b := s.bookings[id];
      if !MayDecide(decider, b) then Abort(WrongStatus)
      else if Overdue(b, now) then ExpireLocked(s, id)
      else if decider.ByVendor? && failover.Some? then FailoverTx(s, id, failover.value, now)
      else
        var found := FindActive(s.stock, id);
        if found.None? then Abort(HoldMissing)
        else
          var k1 :- LeaveHold(s.stock, found.value, Released);
          Commit(s.(bookings := s.bookings[id := Moved(b, if decider.ByVendor? then VendorRejected else ManualRejected)], stock := k1,
                    outbox := s.outbox + [StockMessage(HoldReleased, found.value), BookingMessage(BookingRejected, id)]))
  }

  /** One locked transaction of the expiry sweep: the due test is made again under the lock. */
  predicate Due(b: Booking, now: int) {
    IsPending(b.status) && b.dueAt.Some? && b.dueAt.value <= now
  }

  /** The sweep lists canonical bookings only, and a record type never changes. */
  predicate Swept(s: State, id: Id) {
    id in s.bookings && s.bookings[id].recordType == Canonical
  }

  ghost function ExpireTx(s: State, id: Id, now: int): Tx<State> {
    if id in s.bookings && Due(s.bookings[id], now) then ExpireLocked(s, id) else Commit(s)
  }

  /** Check-in and completion of the service; they keep the allocation. */
  function ServeTx(s: State, id: Id, vendor: Id, news: BookingNews): Tx<State> {
    if id !in s.bookings || s.bookings[id].vendor != vendor || s.bookings[id].recordType != Canonical then Abort(NotFound)
    else
      var b := s.bookings[id];
      if news == BookingNews.Redeemed && b.status == BookingStatus.Confirmed then
        Commit(s.(bookings := s.bookings[id := Moved(b, BookingStatus.Redeemed)], outbox := s.outbox + [BookingMessage(news, id)]))
      else if news == BookingNews.Completed && b.status == BookingStatus.Redeemed then
        Commit(s.(bookings := s.bookings[id := Moved(b, BookingStatus.Completed)], outbox := s.outbox + [BookingMessage(news, id)]))
      else Abort(WrongStatus)
  }

  function CapacityTx(s: State, session: Id, total: int, blocked: int): Tx<State> {
    var k1 :- AdjustCapacity(s.stock, session, total, blocked);
    Commit(s.(stock := k1))
  }

  // ---------- steps ----------

  /** Everything that can happen to the store, with all it depends on. */
  datatype Step =
    | AgentCancels(agentRequest: AgentRequest, draw: Draw)
    | OperationCancels(operationalRequest: OperationalRequest, draw: Draw)
    | FinanceResolves(resolution: ResolutionRequest, refund: Id)
    | RefundMoves(user: User, refund: Id, action: RefundAction)
    | Creates(booking: NewBooking)
    | Confirms(id: Id, decider: Decider, now: int, clock: int, allocation: Id, site: Site)
    | Rejects(id: Id, decider: Decider, reason: string, now: int, failover: Option<Failover>)
    | Expires(id: Id, now: int)
    | Serves(id: Id, vendor: Id, news: BookingNews)
    | SetsCapacity(session: Id, total: int, blocked: int)

  ghost function StepTx(s: State, step: Step): Tx<State> {
    match step
    case AgentCancels(r, d) =>
      if AgentRefusal(r).Some? then Abort(AgentRefusal(r).value) else (var (s1, _) :- AgentTx(s, r, d); Commit(s1))
    case OperationCancels(r, d) =>
      if OperationalRefusal(r).Some? then Abort(OperationalRefusal(r).value) else (var (s1, _) :- OperationalTx(s, r, d); Commit(s1))
    case FinanceResolves(r, rid) => ResolveTx(s, r, rid)
    case RefundMoves(user, rid, action) => RefundTx(s, user, rid, action)
    case Creates(n) => CreateTx(s, n)
    case Confirms(id, decider, now, clock, allocation, site) => ConfirmTx(s, id, decider, now, clock, allocation, site)
    case Rejects(id, decider, reason, now, failover) => RejectTx(s, id, decider, reason, now, failover)
    case Expires(id, now) => if Swept(s, id) then ExpireTx(s, id, now) else Commit(s)
    case Serves(id, vendor, news) => ServeTx(s, id, vendor, news)
    case SetsCapacity(session, total, blocked) => CapacityTx(s, session, total, blocked)
  }

  /** An aborted transaction leaves the store as it was. */
  ghost function Next(s: State, step: Step): State {
    var t := StepTx(s, step);
    if t.Commit? then t.value else s
  }

  ghost function Run(s: State, steps: seq<Step>): State
    decreases |steps|
  {
    if steps == [] then s else Next(Run(s, steps[..|steps| - 1]), steps[|steps| - 1])
  }
}
