/** Cancellation terms of a booking: the calculation, and the fingerprint that ties what was previewed to what is applied. */
module Terms {
  import opened Wrappers
  import opened Text
  import opened Calendar
  import opened Policy
  import opened Charges
  import opened Canonical
  import opened Fingerprint
  import Ledger

  type Id = string

  type Day = d: CivilDate | Valid(d) witness CivilDate(2000, 1, 1)

  datatype RecordType = Legacy | Canonical

  datatype BookingStatus =
    PendingVendor | PendingManual | Confirmed | VendorRejected | ManualRejected | ConfirmationExpired | Cancelled | Redeemed | Completed

  datatype Snapshot = Snapshot(
    timezone: Option<string>, sessionTimezone: Option<string>, startsAt: Option<int>,
    rules: seq<Rule>, policyFingerprint: string)

  datatype Economics = Economics(finalAmount: int, currency: string)

  datatype Booking = Booking(
    recordType: RecordType, status: BookingStatus, version: int, agent: Id, vendor: Id,
    amount: int, currency: string, dueAt: Option<int>, timezone: Option<string>, serviceDay: Day,
    snapshot: Option<Snapshot>, economics: Option<Economics>)

  predicate IsPending(s: BookingStatus) {
    s == PendingVendor || s == PendingManual
  }

  predicate Cancellable(s: BookingStatus) {
    s == Confirmed || IsPending(s)
  }

  /** First of snapshot, session and booking time zone that is present, else UTC. */
  function Timezone(b: Booking): string {
    if b.snapshot.Some? && b.snapshot.value.timezone.Some? then b.snapshot.value.timezone.value
    else if b.snapshot.Some? && b.snapshot.value.sessionTimezone.Some? then b.snapshot.value.sessionTimezone.value
    else if b.timezone.Some? then b.timezone.value
    else "UTC"
  }

  // ---------- the terms that are fingerprinted ----------

  datatype TermSheet = TermSheet(
    booking: Id, status: BookingStatus, version: int, policyFingerprint: string, rule: Rule, days: int,
    amount: int, charge: int, refund: int, timezone: string)

  function StatusText(s: BookingStatus): string {
    match s
    case PendingVendor => "PENDING_VENDOR_CONFIRMATION"
    case PendingManual => "PENDING_MANUAL_REVIEW"
    case Confirmed => "CONFIRMED"
    case VendorRejected => "VENDOR_REJECTED"
    case ManualRejected => "MANUAL_REJECTED"
    case ConfirmationExpired => "CONFIRMATION_EXPIRED"
    case Cancelled => "CANCELLED"
    case Redeemed => "REDEEMED"
    case Completed => "COMPLETED"
  }

  lemma StatusTextInjective(s: BookingStatus, t: BookingStatus)
    requires StatusText(s) == StatusText(t)
    ensures s == t
  {
    assert |StatusText(s)| == |StatusText(t)|;
    assert StatusText(s)[0] == StatusText(t)[0];
  }

  function ChargeText(c: ChargeType): (s: string)
    ensures s != "" && s[0] == if c.Percentage? then 'P' else 'A'
  {
    if c.Percentage? then "PERCENTAGE" else "ABSOLUTE"
  }

  function RuleFields(r: Rule): seq<Field> {
    [Field("minDaysBefore", Number(IntText(r.minDays))),
     Field("maxDaysBefore", if r.maxDays.Some? then Number(IntText(r.maxDays.value)) else Null),
     Field("chargeType", String(ChargeText(r.chargeType))),
     Field("chargeValue", String(r.chargeValue))]
  }

  function SheetFields(t: TermSheet): seq<Field> {
    [Field("bookingId", String(t.booking)),
     Field("status", String(StatusText(t.status))),
     Field("version", Number(IntText(t.version))),
     Field("policyFingerprint", String(t.policyFingerprint)),
     Field("matchedPolicyRule", Object(RuleFields(t.rule))),
     Field("daysBeforeService", Number(IntText(t.days))),
     Field("bookingAmount", String(MoneyText(t.amount))),
     Field("cancellationCharge", String(MoneyText(t.charge))),
     Field("refundEntitlement", String(MoneyText(t.refund))),
     Field("serviceTimezone", String(t.timezone))]
  }

  function PendingFields(booking: Id, status: BookingStatus, version: int, timezone: string): seq<Field> {
    [Field("bookingId", String(booking)),
     Field("status", String(StatusText(status))),
     Field("version", Number(IntText(version))),
     Field("pendingWithdrawal", Bool(true)),
     Field("serviceTimezone", String(timezone))]
  }

  function RequestFields(booking: Id, key: string, category: string, reason: string): seq<Field> {
    [Field("bookingId", String(booking)),
     Field("key", String(key)),
     Field("category", String(category)),
     Field("reason", String(reason))]
  }

  /** Key collation by code point; nothing below depends on which collation is used. */
  function KeyLe(a: string, b: string): bool {
    a == "" || (b != "" && (a[0] < b[0] || (a[0] == b[0] && KeyLe(a[1..], b[1..]))))
  }

  function HashOf(fields: seq<Field>): string {
    FingerprintOf(KeyLe, Object(fields))
  }

  // ---------- the fingerprint determines the terms ----------

  lemma IntTextIsNumber(i: int)
    ensures NumberText(IntText(i))
  {
    NatTextRoundTrip(if i < 0 then -i else i);
  }

  lemma RuleFieldsWellFormed(r: Rule)
    ensures Hashable(RuleFields(r))
  {
    var f := RuleFields(r);
    IntTextIsNumber(r.minDays);
    if r.maxDays.Some? { IntTextIsNumber(r.maxDays.value); }
    assert f[2].key[6] != f[3].key[6];
  }

  /** The keys of a term sheet differ in length or in their first letter. */
  lemma SheetKeysDistinct(t: TermSheet)
    ensures DistinctKeys(SheetFields(t))
  {
    hide IntText, MoneyText, StatusText, RuleFields;
    var f := SheetFields(t);
    forall i, j | 0 <= i < j < |f|
      ensures f[i].key != f[j].key
    {
      assert |f[i].key| != |f[j].key| || f[i].key[0] != f[j].key[0];
    }
  }

  lemma SheetFieldsWellFormed(t: TermSheet)
    ensures Hashable(SheetFields(t))
  {
    SheetKeysDistinct(t);
    var f := SheetFields(t);
    forall i | 0 <= i < |f|
      ensures Sound(f[i].value)
    {
      SheetValueSound(t, i);
    }
    SoundFieldsAreHashable(f);
  }

  ghost predicate Sound(v: Json) {
    WellFormed(v) && FiniteNumbers(v)
  }

  lemma SheetValueSound(t: TermSheet, i: nat)
    requires i < |SheetFields(t)|
    ensures Sound(SheetFields(t)[i].value)
  {
    hide IntText, MoneyText, StatusText, NumberText;
    RuleFieldsWellFormed(t.rule);
    IntTextIsNumber(t.version);
    IntTextIsNumber(t.days);
  }

  lemma SoundFieldsAreHashable(f: seq<Field>)
    requires DistinctKeys(f) && forall i :: 0 <= i < |f| ==> Sound(f[i].value)
    ensures Hashable(f)
  {
  }

  lemma PendingFieldsWellFormed(booking: Id, status: BookingStatus, version: int, timezone: string)
    ensures Hashable(PendingFields(booking, status, version, timezone))
  {
    IntTextIsNumber(version);
  }

  lemma RequestFieldsWellFormed(booking: Id, key: string, category: string, reason: string)
    ensures Hashable(RequestFields(booking, key, category, reason))
  {
  }

  ghost predicate Hashable(f: seq<Field>) {
    WellFormed(Object(f)) && FiniteNumbers(Object(f))
  }

  lemma HashSame(f: seq<Field>, g: seq<Field>)
    requires HashOf(f) == HashOf(g)
    ensures Hashable(f) && Hashable(g) ==> Same(Object(f), Object(g))
  {
    if Hashable(f) && Hashable(g) {
      EqualFingerprintsAreSame(KeyLe, Object(f), Object(g));
    }
  }

  lemma HashFieldwise(f: seq<Field>, g: seq<Field>)
    requires SameKeys(f, g) && HashOf(f) == HashOf(g)
    ensures Hashable(f) && Hashable(g) ==> forall i :: 0 <= i < |f| ==> Same(f[i].value, g[i].value)
    ensures Hashable(f) && Hashable(g) ==> forall i :: 0 <= i < |f| && Leaf(f[i].value) && Leaf(g[i].value) ==> f[i].value == g[i].value
  {
    HashSame(f, g);
    SameFieldwise(f, g);
  }

  lemma RuleFieldsDetermine(a: Rule, b: Rule)
    requires forall i :: 0 <= i < 4 ==> RuleFields(a)[i] == RuleFields(b)[i]
    ensures a == b
  {
    assert RuleFields(a)[0] == RuleFields(b)[0] && RuleFields(a)[1] == RuleFields(b)[1];
    assert RuleFields(a)[2] == RuleFields(b)[2] && RuleFields(a)[3] == RuleFields(b)[3];
    IntTextInjective(a.minDays, b.minDays);
    if a.maxDays.Some? && b.maxDays.Some? {
      IntTextInjective(a.maxDays.value, b.maxDays.value);
    }
  }

  lemma RuleFieldsShape(a: Rule, b: Rule)
    ensures |RuleFields(a)| == 4 && SameKeys(RuleFields(a), RuleFields(b))
    ensures forall i :: 0 <= i < 4 ==> Leaf(RuleFields(a)[i].value)
  {
  }

  lemma SameRules(a: Rule, b: Rule)
    ensures Same(Object(RuleFields(a)), Object(RuleFields(b))) ==> a == b
  {
    RuleFieldsShape(a, b);
    RuleFieldsShape(b, a);
    SameLeavesAgree(RuleFields(a), RuleFields(b));
    if Same(Object(RuleFields(a)), Object(RuleFields(b))) {
      RuleFieldsDetermine(a, b);
    }
  }

  lemma SameLeavesAgree(f: seq<Field>, g: seq<Field>)
    requires SameKeys(f, g)
    requires forall i :: 0 <= i < |f| ==> Leaf(f[i].value) && Leaf(g[i].value)
    ensures Same(Object(f), Object(g)) ==> forall i :: 0 <= i < |f| ==> f[i] == g[i]
  {
    SameFieldwise(f, g);
  }

  /** A sheet's fields seen from outside: all leaves but the rule in fifth place. */
  ghost predicate SheetShape(f: seq<Field>, r: Rule) {
    |f| == 10 && f[4].value == Object(RuleFields(r)) && forall i :: 0 <= i < 10 && i != 4 ==> Leaf(f[i].value)
  }

  lemma SheetsAgree(f: seq<Field>, g: seq<Field>, a: Rule, b: Rule)
    requires SheetShape(f, a) && SheetShape(g, b) && SameKeys(f, g) && Hashable(f) && Hashable(g) && HashOf(f) == HashOf(g)
    ensures a == b && forall i :: 0 <= i < 10 && i != 4 ==> f[i].value == g[i].value
  {
    HashFieldwise(f, g);
    assert Same(f[4].value, g[4].value) ==> a == b by {
      SameRules(a, b);
    }
  }

  lemma SheetFieldsShape(a: TermSheet, b: TermSheet)
    ensures SheetShape(SheetFields(a), a.rule) && SameKeys(SheetFields(a), SheetFields(b))
  {
    hide IntText, MoneyText, StatusText, RuleFields;
  }

  /** Equal fingerprints, equal terms: nothing shown in a preview can differ from what is applied under its fingerprint. */
  lemma SheetHashInjective(a: TermSheet, b: TermSheet)
    requires HashOf(SheetFields(a)) == HashOf(SheetFields(b))
    ensures a == b
  {
    SheetFieldsWellFormed(a);
    SheetFieldsWellFormed(b);
    SheetFieldsShape(a, b);
    SheetFieldsShape(b, a);
    SheetsAgree(SheetFields(a), SheetFields(b), a.rule, b.rule);
    SheetFieldsDetermine(a, b);
  }

  lemma SheetFieldsDetermine(a: TermSheet, b: TermSheet)
    requires a.rule == b.rule
    requires forall i :: 0 <= i < 10 && i != 4 ==> SheetFields(a)[i].value == SheetFields(b)[i].value
    ensures a == b
  {
    var f, g := SheetFields(a), SheetFields(b);
    assert f[0].value == g[0].value && f[1].value == g[1].value && f[2].value == g[2].value && f[3].value == g[3].value;
    assert f[5].value == g[5].value && f[6].value == g[6].value && f[7].value == g[7].value && f[8].value == g[8].value;
    assert f[9].value == g[9].value;
    EqualTexts(a, b);
  }

  lemma EqualTexts(a: TermSheet, b: TermSheet)
    requires a.booking == b.booking && a.policyFingerprint == b.policyFingerprint && a.rule == b.rule && a.timezone == b.timezone
    requires StatusText(a.status) == StatusText(b.status)
    requires IntText(a.version) == IntText(b.version) && IntText(a.days) == IntText(b.days)
    requires MoneyText(a.amount) == MoneyText(b.amount) && MoneyText(a.charge) == MoneyText(b.charge)
    requires MoneyText(a.refund) == MoneyText(b.refund)
    ensures a == b
  {
    StatusTextInjective(a.status, b.status);
    IntTextInjective(a.version, b.version);
    IntTextInjective(a.days, b.days);
    MoneyTextInjective(a.amount, b.amount);
    MoneyTextInjective(a.charge, b.charge);
    MoneyTextInjective(a.refund, b.refund);
  }

  lemma PendingHashInjective(b0: Id, s0: BookingStatus, v0: int, z0: string, b1: Id, s1: BookingStatus, v1: int, z1: string)
    requires HashOf(PendingFields(b0, s0, v0, z0)) == HashOf(PendingFields(b1, s1, v1, z1))
    ensures b0 == b1 && s0 == s1 && v0 == v1 && z0 == z1
  {
    var f, g := PendingFields(b0, s0, v0, z0), PendingFields(b1, s1, v1, z1);
    PendingFieldsWellFormed(b0, s0, v0, z0);
    PendingFieldsWellFormed(b1, s1, v1, z1);
    HashFieldwise(f, g);
    assert f[0].value == g[0].value && f[1].value == g[1].value && f[2].value == g[2].value && f[4].value == g[4].value;
    StatusTextInjective(s0, s1);
    IntTextInjective(v0, v1);
  }

  /** A withdrawal fingerprint is never a term-sheet fingerprint: only one of them has a pendingWithdrawal field. */
  lemma PendingHashIsNoSheet(t: TermSheet, b: Id, s: BookingStatus, v: int, z: string)
    ensures HashOf(PendingFields(b, s, v, z)) != HashOf(SheetFields(t))
  {
    var f, g := PendingFields(b, s, v, z), SheetFields(t);
    if HashOf(f) == HashOf(g) {
      PendingFieldsWellFormed(b, s, v, z);
      SheetFieldsWellFormed(t);
      HashSame(f, g);
      assert HasKey(g, f[3].key);
      NoWithdrawalField(t);
    }
  }

  lemma NoWithdrawalField(t: TermSheet)
    ensures !HasKey(SheetFields(t), "pendingWithdrawal")
  {
    var g := SheetFields(t);
    forall i | 0 <= i < |g|
      ensures g[i].key != "pendingWithdrawal"
    {
      assert |g[i].key| != 17 || g[i].key[0] != 'p' || g[i].key[1] != 'e';
    }
  }

  /** Under one key a cancellation request is identified by its category and trimmed reason. */
  lemma RequestHashInjective(b: Id, key: string, c0: string, r0: string, c1: string, r1: string)
    requires HashOf(RequestFields(b, key, c0, r0)) == HashOf(RequestFields(b, key, c1, r1))
    ensures c0 == c1 && r0 == r1
  {
    var f, g := RequestFields(b, key, c0, r0), RequestFields(b, key, c1, r1);
    RequestFieldsWellFormed(b, key, c0, r0);
    RequestFieldsWellFormed(b, key, c1, r1);
    HashFieldwise(f, g);
    assert f[2].value == g[2].value && f[3].value == g[3].value;
  }

  // ---------- the calculation ----------

  datatype Calculation =
    | Ineligible(reason: Error)
    | Eligible(timezone: string, cancelDay: Day, daysBefore: int, policyFingerprint: Option<string>, rule: Option<Rule>,
               bookingAmount: int, currency: string, charge: int, refund: int, state: Ledger.FinancialState, fingerprint: string)

  function SheetOf(id: Id, b: Booking, rule: Rule, days: int): TermSheet
    requires b.snapshot.Some? && b.economics.Some?
  {
    var amount := b.economics.value.finalAmount;
    TermSheet(id, b.status, b.version, b.snapshot.value.policyFingerprint, rule, days,
              amount, Charge(amount, rule), Refund(amount, rule), Timezone(b))
  }

  /** What a confirmed booking would be charged if cancelled now. */
  function Calculate(id: Id, b: Booking, now: int, today: Day): Calculation {
    if b.snapshot.None? || b.economics.None? then Ineligible(SnapshotMissing)
    else
      var snapshot := b.snapshot.value;
      var days := DateDifference(b.serviceDay, today);
      if snapshot.startsAt.Some? && now >= snapshot.startsAt.value then Ineligible(ServiceAlreadyStarted)
      else
        var matches := Matches(snapshot.rules, days);
        if matches == [] then Ineligible(PolicyNoMatch)
        else if |matches| > 1 then Ineligible(Error.PolicyAmbiguous)
        else
          var t := SheetOf(id, b, matches[0], days);
          Eligible(Timezone(b), today, days, Some(snapshot.policyFingerprint), Some(t.rule),
                   t.amount, b.economics.value.currency, t.charge, t.refund,
                   if t.refund == 0 then Ledger.NoRefund else Ledger.RefundPending, HashOf(SheetFields(t)))
  }

  /** A pending booking is withdrawn for nothing; finance decides later. */
  function PendingCalculation(id: Id, b: Booking, today: Day): Calculation {
    Eligible(Timezone(b), today, DateDifference(b.serviceDay, today), None, None, b.amount, b.currency, 0, 0,
             Ledger.PendingFinancial, HashOf(PendingFields(id, b.status, b.version, Timezone(b))))
  }

  function CalculationFor(id: Id, b: Booking, now: int, today: Day): Calculation {
    if b.status == Confirmed then Calculate(id, b, now, today) else PendingCalculation(id, b, today)
  }

  /** On an accepted policy the calculation is never ambiguous. */
  lemma AcceptedPolicyIsNeverAmbiguous(id: Id, b: Booking, now: int, today: Day)
    requires b.snapshot.Some? && Accepted(b.snapshot.value.rules)
    ensures Calculate(id, b, now, today) != Ineligible(Error.PolicyAmbiguous)
  {
    AcceptedMatchesAtMostOne(b.snapshot.value.rules, DateDifference(b.serviceDay, today));
  }

  /** Everything a preview and a later calculation can agree on through a shared fingerprint, the booking first of all. */
  lemma SameFingerprintSameTerms(id0: Id, b0: Booking, now0: int, day0: Day, id1: Id, b1: Booking, now1: int, day1: Day)
    requires Cancellable(b0.status) && Cancellable(b1.status)
    requires var c0, c1 := CalculationFor(id0, b0, now0, day0), CalculationFor(id1, b1, now1, day1);
             c0.Eligible? && c1.Eligible? && c0.fingerprint == c1.fingerprint
    ensures id0 == id1 && b0.status == b1.status && b0.version == b1.version
    ensures var c0, c1 := CalculationFor(id0, b0, now0, day0), CalculationFor(id1, b1, now1, day1);
            && c0.rule == c1.rule && c0.charge == c1.charge && c0.refund == c1.refund && c0.state == c1.state
            && c0.policyFingerprint == c1.policyFingerprint && c0.timezone == c1.timezone
            && (b0.status == Confirmed ==> c0.daysBefore == c1.daysBefore && c0.bookingAmount == c1.bookingAmount)
  {
    if b0.status == Confirmed && b1.status == Confirmed {
      var d0, d1 := DateDifference(b0.serviceDay, day0), DateDifference(b1.serviceDay, day1);
      SheetHashInjective(SheetOf(id0, b0, Matches(b0.snapshot.value.rules, d0)[0], d0),
                         SheetOf(id1, b1, Matches(b1.snapshot.value.rules, d1)[0], d1));
    } else if b0.status == Confirmed {
      var d0 := DateDifference(b0.serviceDay, day0);
      PendingHashIsNoSheet(SheetOf(id0, b0, Matches(b0.snapshot.value.rules, d0)[0], d0), id1, b1.status, b1.version, Timezone(b1));
    } else if b1.status == Confirmed {
      var d1 := DateDifference(b1.serviceDay, day1);
      PendingHashIsNoSheet(SheetOf(id1, b1, Matches(b1.snapshot.value.rules, d1)[0], d1), id0, b0.status, b0.version, Timezone(b0));
    } else {
      PendingHashInjective(id0, b0.status, b0.version, Timezone(b0), id1, b1.status, b1.version, Timezone(b1));
    }
  }
}
