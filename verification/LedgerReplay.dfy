/** The outbox and the event log, each telling the whole story of a cancellation. */
module LedgerReplay {
  import opened Wrappers
  import opened Sums
  import opened EventKeys
  import opened Ledger
  import opened LedgerInvariant

  /** What a reader of the outbox knows about one booking's money: the financial state, the split finance resolved, the refund's
      status and amount, and the reference it was paid under. */
  datatype View = View(state: Option<FinancialState>, split: Option<(int, int)>, refund: Option<RefundStatus>, owed: Option<int>,
                       reference: Option<string>)

  const NOTHING := View(None, None, None, None, None)

  function Hear(v: View, m: Message, b: Id): View {
    match m
    case BookingCancelled(booking, _, state) => if booking == b then v.(state := Some(state)) else v
    case FinancialResolved(_, booking, charge, refund, state) =>
      if booking == b then v.(state := Some(state), split := Some((charge, refund))) else v
    case RefundCreated(_, booking, _, amount) => if booking == b then v.(refund := Some(RefundStatus.Pending), owed := Some(amount)) else v
    case RefundConfirmed(_, booking, _, amount, reference) =>
      if booking == b
      then v.(state := Some(Refunded), refund := Some(RefundStatus.Confirmed), owed := Some(amount), reference := Some(reference)) else v
    case RefundFailed(_, booking, _, amount, _) =>
      if booking == b then v.(state := Some(FinancialState.RefundFailed), refund := Some(RefundStatus.Failed), owed := Some(amount)) else v
    case RefundRetried(_, booking, _, amount) =>
      if booking == b then v.(state := Some(RefundPending), refund := Some(RefundStatus.Pending), owed := Some(amount)) else v
    case StockMessage(_, _) => v
    case BookingMessage(_, _) => v
  }

  function Replay(outbox: seq<Message>, b: Id): View {
    if outbox == [] then NOTHING
    else Hear(Replay(outbox[..|outbox| - 1], b), outbox[|outbox| - 1], b)
  }

  function HearAll(v: View, news: seq<Message>, b: Id): View
    decreases |news|
  {
    if news == [] then v else HearAll(Hear(v, news[0], b), news[1..], b)
  }

  lemma {:induction false} ReplayAppends(outbox: seq<Message>, news: seq<Message>, b: Id)
    ensures Replay(outbox + news, b) == HearAll(Replay(outbox, b), news, b)
    decreases |news|
  {
    if news == [] {
      assert outbox + news == outbox;
    } else {
      var next := outbox + [news[0]];
      assert next[..|next| - 1] == outbox;
      assert outbox + news == next + news[1..];
      ReplayAppends(next, news[1..], b);
    }
  }

  function SplitOf(c: Cancellation): Option<(int, int)> {
    if c.resolution.Some? then Some((c.resolution.value.charge, c.resolution.value.refund)) else None
  }

  /** What the tables say about the same booking. */
  function ViewOf(l: Ledger, b: Id): View {
    if b !in l.cancellationOf || l.cancellationOf[b] !in l.cancellations then NOTHING
    else
      var cid := l.cancellationOf[b];
      var c := l.cancellations[cid];
      if cid in l.refundOf && l.refundOf[cid] in l.refunds then
        var f := l.refunds[l.refundOf[cid]];
        View(Some(c.state), SplitOf(c), Some(f.status), Some(f.amount), f.reference)
      else View(Some(c.state), SplitOf(c), None, None, None)
  }

  ghost predicate Mirrors(l: Ledger, outbox: seq<Message>) {
    forall b :: Replay(outbox, b) == ViewOf(l, b)
  }

  lemma {:induction false} NoiseIsIgnored(v: View, news: seq<Message>, b: Id)
    requires forall i :: 0 <= i < |news| ==> news[i].StockMessage? || news[i].BookingMessage?
    ensures HearAll(v, news, b) == v
  {
    if news != [] {
      NoiseIsIgnored(v, news[1..], b);
    }
  }

  lemma NoiseKeepsMirror(l: Ledger, outbox: seq<Message>, news: seq<Message>)
    requires Mirrors(l, outbox)
    requires forall i :: 0 <= i < |news| ==> news[i].StockMessage? || news[i].BookingMessage?
    ensures Mirrors(l, outbox + news)
  {
    forall b
      ensures Replay(outbox + news, b) == ViewOf(l, b)
    {
      ReplayAppends(outbox, news, b);
      NoiseIsIgnored(Replay(outbox, b), news, b);
    }
  }

  lemma EventsDoNotShow(l: Ledger, l': Ledger, b: Id)
    requires SameRows(l, l')
    ensures ViewOf(l, b) == ViewOf(l', b)
  {
  }

  lemma RecordNews(l: Ledger, vendor: Id, cid: Id, c: Cancellation, rid: Id)
    requires Record(l, vendor, cid, c, rid).Commit?
    ensures Record(l, vendor, cid, c, rid).value.1
            == if c.state.RefundPending? then [RefundCreated(rid, c.booking, cid, c.entitlement)] else []
  {
  }

  lemma RecordedView(l: Ledger, cid: Id, c: Cancellation, rid: Id, b: Id)
    requires Indexed(l) && cid !in l.cancellations && c.booking !in l.cancellationOf
    requires c.state.RefundPending? ==> rid !in l.refunds
    ensures ViewOf(RecordedRows(l, cid, c, rid), b)
            == if b != c.booking then ViewOf(l, b)
               else if c.state.RefundPending? then View(Some(c.state), SplitOf(c), Some(RefundStatus.Pending), Some(c.entitlement), None)
               else View(Some(c.state), SplitOf(c), None, None, None)
  {
    FilingKeepsIndex(l, cid, c);
  }

  lemma RecordMirrors(l: Ledger, outbox: seq<Message>, vendor: Id, cid: Id, c: Cancellation, rid: Id)
    requires LedgerValid(l) && Mirrors(l, outbox) && c.resolution.None? && Record(l, vendor, cid, c, rid).Commit?
    ensures var (l', news) := Record(l, vendor, cid, c, rid).value;
            Mirrors(l', outbox + news + [BookingCancelled(c.booking, c.facts.initiator, c.state)])
  {
    var (l', news) := Record(l, vendor, cid, c, rid).value;
    var last := BookingCancelled(c.booking, c.facts.initiator, c.state);
    RecordShape(l, vendor, cid, c, rid);
    RecordNews(l, vendor, cid, c, rid);
    forall b
      ensures Replay(outbox + news + [last], b) == ViewOf(l', b)
    {
      RecordedView(l, cid, c, rid, b);
      EventsDoNotShow(RecordedRows(l, cid, c, rid), l', b);
      ReplayAppends(outbox, news, b);
      ReplayAppends(outbox + news, [last], b);
      assert Replay(outbox, b) == ViewOf(l, b);
    }
  }

  lemma ResolveNews(l: Ledger, vendor: Id, cid: Id, charge: int, refund: int, reason: string, rid: Id, user: Id)
    requires Resolve(l, vendor, cid, charge, refund, reason, rid, user).Commit?
    ensures cid in l.cancellations
    ensures var b := l.cancellations[cid].booking;
            Resolve(l, vendor, cid, charge, refund, reason, rid, user).value.1
            == (if refund == 0 then [] else [RefundCreated(rid, b, cid, refund)])
               + [FinancialResolved(cid, b, charge, refund, if refund == 0 then NoRefund else RefundPending)]
  {
  }

  lemma ResolvedView(l: Ledger, cid: Id, c1: Cancellation, rid: Id, user: Id, b: Id)
    requires Indexed(l) && cid in l.cancellations && cid !in l.refundOf && c1.booking == l.cancellations[cid].booking
    requires c1.entitlement != 0 ==> rid !in l.refunds
    ensures ViewOf(ResolvedRows(l, cid, c1, rid, user), b)
            == if b != c1.booking then ViewOf(l, b)
               else if c1.entitlement != 0 then View(Some(c1.state), SplitOf(c1), Some(RefundStatus.Pending), Some(c1.entitlement), None)
               else View(Some(c1.state), SplitOf(c1), None, None, None)
  {
  }

  lemma HearOne(v: View, m: Message, b: Id)
    ensures HearAll(v, [m], b) == Hear(v, m, b)
  {
    assert [m][1..] == [];
  }

  lemma ResolvedHeard(v: View, cid: Id, b: Id, charge: int, refund: int, rid: Id, reader: Id)
    ensures var state := if refund == 0 then NoRefund else RefundPending;
            var news := (if refund == 0 then [] else [RefundCreated(rid, b, cid, refund)]) + [FinancialResolved(cid, b, charge, refund, state)];
            HearAll(v, news, reader)
            == if b != reader then v
               else if refund != 0 then View(Some(state), Some((charge, refund)), Some(RefundStatus.Pending), Some(refund), v.reference)
               else v.(state := Some(state), split := Some((charge, refund)))
  {
    var last := FinancialResolved(cid, b, charge, refund, if refund == 0 then NoRefund else RefundPending);
    if refund != 0 {
      var first := RefundCreated(rid, b, cid, refund);
      assert ([first] + [last])[1..] == [last];
      HearOne(Hear(v, first, reader), last, reader);
    } else {
      assert [] + [last] == [last];
      HearOne(v, last, reader);
    }
  }

  lemma ResolveMirrors(l: Ledger, outbox: seq<Message>, vendor: Id, cid: Id, charge: int, refund: int, reason: string, rid: Id, user: Id)
    requires LedgerValid(l) && Mirrors(l, outbox) && Resolve(l, vendor, cid, charge, refund, reason, rid, user).Commit?
    ensures var (l', news) := Resolve(l, vendor, cid, charge, refund, reason, rid, user).value; Mirrors(l', outbox + news)
  {
    var (l', news) := Resolve(l, vendor, cid, charge, refund, reason, rid, user).value;
    ResolveChecks(l, vendor, cid, charge, refund, reason, rid, user);
    ResolveShape(l, vendor, cid, charge, refund, reason, rid, user);
    ResolveNews(l, vendor, cid, charge, refund, reason, rid, user);
    var c := l.cancellations[cid];
    var c1 := ResolvedRow(c, charge, refund, reason);
    forall b
      ensures Replay(outbox + news, b) == ViewOf(l', b)
    {
      ResolvedView(l, cid, c1, rid, user, b);
      EventsDoNotShow(ResolvedRows(l, cid, c1, rid, user), l', b);
      ReplayAppends(outbox, news, b);
      ResolvedHeard(Replay(outbox, b), cid, c.booking, charge, refund, rid, b);
      assert Replay(outbox, b) == ViewOf(l, b);
    }
  }

  function TransitionNewsOf(rid: Id, f: Refund, action: RefundAction): Message {
    match action
    case ConfirmWith(reference) => RefundConfirmed(rid, f.booking, f.cancellation, f.amount, reference)
    case FailWith(reason) => Message.RefundFailed(rid, f.booking, f.cancellation, f.amount, reason)
    case Retry => RefundRetried(rid, f.booking, f.cancellation, f.amount)
  }

  lemma TransitionNews(l: Ledger, vendor: Id, rid: Id, action: RefundAction, user: Id)
    requires Transition(l, vendor, rid, action, user).Commit?
    ensures rid in l.refunds
    ensures var f := l.refunds[rid];
            Transition(l, vendor, rid, action, user).value.1
            == if Moves(f, action) then [TransitionNewsOf(rid, f, action)] else []
  {
    TransitionRuns(l, vendor, rid, action, user);
  }

  lemma MovedView(l: Ledger, rid: Id, f: Refund, b: Id)
    requires Indexed(l) && rid in l.refunds
    requires f.cancellation == l.refunds[rid].cancellation && f.booking == l.refunds[rid].booking
    ensures f.cancellation in l.cancellations
    ensures ViewOf(MovedRows(l, rid, f), b)
            == if b != f.booking then ViewOf(l, b)
               else View(Some(StateFor(f.status)), SplitOf(l.cancellations[f.cancellation]), Some(f.status), Some(f.amount), f.reference)
  {
    assert f.cancellation in l.refundOf;
    if b in l.cancellationOf && b != f.booking {
      assert l.cancellationOf[b] != f.cancellation;
    }
  }

  lemma MoveMirrors(l: Ledger, l': Ledger, outbox: seq<Message>, rid: Id, action: RefundAction)
    requires Indexed(l) && Mirrors(l, outbox) && rid in l.refunds && l.refunds[rid].cancellation in l.cancellations
    requires SameRows(MovedRows(l, rid, SettledRow(l.refunds[rid], action)), l')
    ensures Mirrors(l', outbox + [TransitionNewsOf(rid, l.refunds[rid], action)])
  {
    hide MovedRows;
    var f1 := SettledRow(l.refunds[rid], action);
    var news := [TransitionNewsOf(rid, l.refunds[rid], action)];
    forall b
      ensures Replay(outbox + news, b) == ViewOf(l', b)
    {
      ReplayAppends(outbox, news, b);
      MovedView(l, rid, f1, b);
      EventsDoNotShow(MovedRows(l, rid, f1), l', b);
      assert Replay(outbox, b) == ViewOf(l, b);
    }
  }

  lemma TransitionMirrors(l: Ledger, outbox: seq<Message>, vendor: Id, rid: Id, action: RefundAction, user: Id)
    requires LedgerValid(l) && Mirrors(l, outbox) && Transition(l, vendor, rid, action, user).Commit?
    ensures var (l', news) := Transition(l, vendor, rid, action, user).value; Mirrors(l', outbox + news)
  {
    var (l', news) := Transition(l, vendor, rid, action, user).value;
    TransitionShape(l, vendor, rid, action, user);
    TransitionNews(l, vendor, rid, action, user);
    if Moves(l.refunds[rid], action) {
      MoveMirrors(l, l', outbox, rid, action);
    } else {
      assert outbox + news == outbox;
    }
  }

  // ---------- the event log counts what happened ----------

  ghost function FailedWeight(r: Id): FinancialEvent -> int {
    (e: FinancialEvent) => if e.kind == RefundFailedEvent && e.refund == Some(r) then 1 else 0
  }

  /** How many REFUND_FAILED events the log holds for a refund. */
  ghost function LoggedFailures(l: Ledger, r: Id): int {
    SumOver(l.events, FailedWeight(r))
  }

  /** How many failures were really reported, counted message by message. */
  function ReportedFailures(outbox: seq<Message>, r: Id): nat {
    if outbox == [] then 0
    else
      var m := outbox[|outbox| - 1];
      ReportedFailures(outbox[..|outbox| - 1], r) + (if m.RefundFailed? && m.refund == r then 1 else 0)
  }

  lemma {:induction false} ReportsAppend(outbox: seq<Message>, news: seq<Message>, r: Id)
    ensures ReportedFailures(outbox + news, r) == ReportedFailures(outbox, r) + ReportedFailures(news, r)
    decreases |news|
  {
    if news == [] {
      assert outbox + news == outbox;
    } else {
      var all := outbox + news;
      assert all[..|all| - 1] == outbox + news[..|news| - 1];
      ReportsAppend(outbox, news[..|news| - 1], r);
    }
  }

  /** Failures told by a refund's version alone. */
  function FailuresAt(f: Refund): int {
    if f.status == RefundStatus.Confirmed then (f.version - 2) / 2 else f.version / 2
  }

  ghost predicate CountsTrue(l: Ledger, outbox: seq<Message>) {
    forall r :: LoggedFailures(l, r) == ReportedFailures(outbox, r) == (if r in l.refunds then FailuresAt(l.refunds[r]) else 0)
  }

  lemma QuietNews(news: seq<Message>, r: Id)
    requires forall i :: 0 <= i < |news| ==> !news[i].RefundFailed?
    ensures ReportedFailures(news, r) == 0
  {
  }

  lemma QuietKeepsCounts(l: Ledger, outbox: seq<Message>, l': Ledger, news: seq<Message>)
    requires CountsTrue(l, outbox) && forall i :: 0 <= i < |news| ==> !news[i].RefundFailed?
    requires forall r :: LoggedFailures(l', r) == LoggedFailures(l, r)
    requires forall r :: (if r in l'.refunds then FailuresAt(l'.refunds[r]) else 0) == (if r in l.refunds then FailuresAt(l.refunds[r]) else 0)
    ensures CountsTrue(l', outbox + news)
  {
    forall r
      ensures LoggedFailures(l', r) == ReportedFailures(outbox + news, r)
    {
      ReportsAppend(outbox, news, r);
      QuietNews(news, r);
    }
  }

  lemma PostCounts(events: map<EventKey, FinancialEvent>, key: EventKey, e: FinancialEvent, r: Id)
    requires key !in events
    ensures SumOver(events[key := e], FailedWeight(r)) == SumOver(events, FailedWeight(r)) + FailedWeight(r)(e)
  {
    SumInsert(events, FailedWeight(r), key, e);
  }

  lemma RecordLogs(l: Ledger, vendor: Id, cid: Id, c: Cancellation, rid: Id, r: Id)
    requires BookingCancelledKey(c.booking) !in l.events
    requires c.state.RefundPending? ==> RefundCreatedKey(rid) !in l.events
    ensures SumOver(RecordedEvents(l, vendor, cid, c, rid), FailedWeight(r)) == LoggedFailures(l, r)
  {
    var key, e := BookingCancelledKey(c.booking), CancelledEvent(vendor, cid, c);
    PostCounts(l.events, key, e, r);
    if c.state.RefundPending? {
      PostCounts(l.events[key := e], RefundCreatedKey(rid), CreatedEvent(vendor, cid, rid, c, c.entitlement), r);
    }
  }

  lemma RecordedKeepsCounts(l: Ledger, l': Ledger, outbox: seq<Message>, news: seq<Message>, vendor: Id, cid: Id, c: Cancellation, rid: Id)
    requires CountsTrue(l, outbox) && forall i :: 0 <= i < |news| ==> !news[i].RefundFailed?
    requires BookingCancelledKey(c.booking) !in l.events
    requires c.state.RefundPending? ==> RefundCreatedKey(rid) !in l.events && rid !in l.refunds
    requires l'.events == RecordedEvents(l, vendor, cid, c, rid)
    requires l'.refunds == RecordedRows(l, cid, c, rid).refunds
    ensures CountsTrue(l', outbox + news)
  {
    forall r
      ensures LoggedFailures(l', r) == LoggedFailures(l, r)
    {
      RecordLogs(l, vendor, cid, c, rid, r);
    }
    QuietKeepsCounts(l, outbox, l', news);
  }

  lemma RecordCounts(l: Ledger, outbox: seq<Message>, vendor: Id, cid: Id, c: Cancellation, rid: Id, last: Message)
    requires LedgerValid(l) && CountsTrue(l, outbox) && Record(l, vendor, cid, c, rid).Commit? && !last.RefundFailed?
    ensures var (l', news) := Record(l, vendor, cid, c, rid).value; CountsTrue(l', outbox + (news + [last]))
  {
    hide Record, LedgerValid, CountsTrue, RecordedEvents;
    var (l', news) := Record(l, vendor, cid, c, rid).value;
    RecordShape(l, vendor, cid, c, rid);
    RecordNews(l, vendor, cid, c, rid);
    RecordedKeepsCounts(l, l', outbox, news + [last], vendor, cid, c, rid);
  }

  lemma ResolveLogs(l: Ledger, vendor: Id, cid: Id, c1: Cancellation, rid: Id, user: Id, r: Id)
    requires c1.resolution.Some? && ResolvedKey(cid) !in l.events
    requires c1.entitlement != 0 ==> RefundCreatedKey(rid) !in l.events
    ensures SumOver(ResolvedEvents(l, vendor, cid, c1, rid, user), FailedWeight(r)) == LoggedFailures(l, r)
  {
    var key, e := ResolvedKey(cid), ResolvedEventOf(vendor, cid, c1, user);
    PostCounts(l.events, key, e, r);
    if c1.entitlement != 0 {
      PostCounts(l.events[key := e], RefundCreatedKey(rid), CreatedEvent(vendor, cid, rid, c1, c1.entitlement), r);
    }
  }

  lemma ResolvedKeepsCounts(l: Ledger, l': Ledger, outbox: seq<Message>, news: seq<Message>,
                            vendor: Id, cid: Id, c1: Cancellation, rid: Id, user: Id)
    requires CountsTrue(l, outbox) && forall i :: 0 <= i < |news| ==> !news[i].RefundFailed?
    requires c1.resolution.Some? && ResolvedKey(cid) !in l.events
    requires c1.entitlement != 0 ==> RefundCreatedKey(rid) !in l.events && rid !in l.refunds
    requires l'.events == ResolvedEvents(l, vendor, cid, c1, rid, user)
    requires l'.refunds == ResolvedRows(l, cid, c1, rid, user).refunds
    ensures CountsTrue(l', outbox + news)
  {
    forall r
      ensures LoggedFailures(l', r) == LoggedFailures(l, r)
    {
      ResolveLogs(l, vendor, cid, c1, rid, user, r);
    }
    QuietKeepsCounts(l, outbox, l', news);
  }

  lemma ResolveCounts(l: Ledger, outbox: seq<Message>, vendor: Id, cid: Id, charge: int, refund: int, reason: string, rid: Id, user: Id)
    requires LedgerValid(l) && CountsTrue(l, outbox) && Resolve(l, vendor, cid, charge, refund, reason, rid, user).Commit?
    ensures var (l', news) := Resolve(l, vendor, cid, charge, refund, reason, rid, user).value; CountsTrue(l', outbox + news)
  {
    var (l', news) := Resolve(l, vendor, cid, charge, refund, reason, rid, user).value;
    ResolveChecks(l, vendor, cid, charge, refund, reason, rid, user);
    ResolveShape(l, vendor, cid, charge, refund, reason, rid, user);
    ResolveNews(l, vendor, cid, charge, refund, reason, rid, user);
    ResolvedKeepsCounts(l, l', outbox, news, vendor, cid, ResolvedRow(l.cancellations[cid], charge, refund, reason), rid, user);
  }

  lemma MoveLogs(l: Ledger, vendor: Id, rid: Id, f: Refund, action: RefundAction, user: Id, r: Id)
    requires SettledKey(rid, f, action) !in l.events
    ensures SumOver(SettledEvents(l, vendor, rid, f, action, user), FailedWeight(r))
            == LoggedFailures(l, r) + (if action.FailWith? && r == rid then 1 else 0)
  {
    if !action.Retry? {
      PostCounts(l.events, SettledKey(rid, f, action), SettledEvent(vendor, rid, f, action, user), r);
    }
  }

  lemma MoveReports(outbox: seq<Message>, rid: Id, f: Refund, action: RefundAction, r: Id)
    ensures ReportedFailures(outbox + [TransitionNewsOf(rid, f, action)], r)
            == ReportedFailures(outbox, r) + (if action.FailWith? && r == rid then 1 else 0)
  {
    var news := [TransitionNewsOf(rid, f, action)];
    ReportsAppend(outbox, news, r);
    assert news[..0] == [];
  }

  lemma MoveCounts(l: Ledger, l': Ledger, outbox: seq<Message>, vendor: Id, rid: Id, action: RefundAction, user: Id)
    requires KeysExact(l) && CountsTrue(l, outbox) && rid in l.refunds && VersionTold(l.refunds[rid])
    requires var f := l.refunds[rid];
             && Moves(f, action)
             && l'.refunds == l.refunds[rid := SettledRow(f, action)]
             && l'.events == SettledEvents(l, vendor, rid, f, action, user)
    ensures CountsTrue(l', outbox + [TransitionNewsOf(rid, l.refunds[rid], action)])
  {
    var f := l.refunds[rid];
    SettledKeyIsFresh(l, rid, action);
    forall r
      ensures LoggedFailures(l', r) == ReportedFailures(outbox + [TransitionNewsOf(rid, f, action)], r)
      ensures LoggedFailures(l', r) == if r in l'.refunds then FailuresAt(l'.refunds[r]) else 0
    {
      assert LoggedFailures(l, r) == ReportedFailures(outbox, r);
      MoveReports(outbox, rid, f, action, r);
      MoveLogs(l, vendor, rid, f, action, user, r);
    }
  }

  lemma TransitionCounts(l: Ledger, outbox: seq<Message>, vendor: Id, rid: Id, action: RefundAction, user: Id)
    requires LedgerValid(l) && CountsTrue(l, outbox) && Transition(l, vendor, rid, action, user).Commit?
    ensures var (l', news) := Transition(l, vendor, rid, action, user).value; CountsTrue(l', outbox + news)
  {
    var (l', news) := Transition(l, vendor, rid, action, user).value;
    TransitionShape(l, vendor, rid, action, user);
    TransitionNews(l, vendor, rid, action, user);
    if Moves(l.refunds[rid], action) {
      MoveCounts(l, l', outbox, vendor, rid, action, user);
    } else {
      assert outbox + news == outbox;
    }
  }

  // ---------- money paid out ----------

  ghost function PaidWeight(cid: Id): FinancialEvent -> int {
    (e: FinancialEvent) => if e.kind == RefundConfirmedEvent && e.cancellation == Some(cid) then e.amount.GetOr(0) else 0
  }

  ghost function Paid(l: Ledger, cid: Id): int {
    SumOver(l.events, PaidWeight(cid))
  }

  lemma OnlyItsRefundPays(l: Ledger, cid: Id, key: EventKey)
    requires LedgerValid(l) && cid in l.cancellations && key in l.events && PaidWeight(cid)(l.events[key]) != 0
    ensures l.cancellations[cid].state == Refunded && cid in l.refundOf && l.refundOf[cid] in l.refunds
    ensures key == RefundConfirmedKey(l.refundOf[cid], l.refunds[l.refundOf[cid]].version)
    ensures PaidWeight(cid)(l.events[key]) == l.cancellations[cid].entitlement
  {
    assert EventTrue(l, key, l.events[key]);
    assert key.RefundConfirmedKey? ==> KeyDue(l, key);
    assert Lockstep(l, cid);
  }

  /** The log's confirmed refunds of a cancellation add up to its entitlement once it is refunded, and to nothing before;
      however often the payout failed and was retried, it is paid at most once. */
  lemma PaidExactlyOnce(l: Ledger, cid: Id)
    requires LedgerValid(l) && cid in l.cancellations
    ensures Paid(l, cid) == if l.cancellations[cid].state == Refunded then l.cancellations[cid].entitlement else 0
    ensures Paid(l, cid) <= l.cancellations[cid].entitlement
  {
    assert Lockstep(l, cid);
    if l.cancellations[cid].state == Refunded {
      var rid := l.refundOf[cid];
      var key := RefundConfirmedKey(rid, l.refunds[rid].version);
      assert KeyDue(l, key);
      assert EventTrue(l, key, l.events[key]);
      SumSplit(l.events, PaidWeight(cid), key);
      forall k | k in l.events - {key}
        ensures PaidWeight(cid)((l.events - {key})[k]) == 0
      {
        if PaidWeight(cid)(l.events[k]) != 0 {
          OnlyItsRefundPays(l, cid, k);
        }
      }
      SumZero(l.events - {key}, PaidWeight(cid));
    } else {
      forall k | k in l.events
        ensures PaidWeight(cid)(l.events[k]) == 0
      {
        if PaidWeight(cid)(l.events[k]) != 0 {
          OnlyItsRefundPays(l, cid, k);
        }
      }
      SumZero(l.events, PaidWeight(cid));
    }
  }
}
