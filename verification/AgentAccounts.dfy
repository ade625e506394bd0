/** Agent wallets and commercial terms under maker and checker: one profile row per agent, changed only by approvals. */
module AgentAccounts {
  import opened Wrappers
  import opened RequestFingerprint

  type Id = string

  datatype Review = Waiting | Approved(checker: Id) | Rejected(checker: Id, why: string)

  /** What the agent is granted. */
  datatype Terms = Terms(tier: string, commission: real, creditLimit: real, creditDays: int, markup: real)

  /** A partial update: only the fields that are given change. */
  datatype Change = Change(tier: Option<string>, commission: Option<real>, creditLimit: Option<real>, creditDays: Option<real>, markup: Option<real>)

  /** Balances are in minor units. */
  datatype Profile = Profile(terms: Terms, balance: int)

  datatype CreditRequest = CreditRequest(
    tenant: Id, amount: int, payment: string, reference: Option<string>, reason: string, maker: Id, review: Review, entry: Option<Id>)

  datatype ChangeRequest = ChangeRequest(tenant: Id, change: Change, reason: string, maker: Id, review: Review)

  datatype Entry = Entry(id: Id, tenant: Id, amount: int, balanceAfter: int, payment: string, reference: Option<string>, reason: string, maker: Id)

  /** The approvals in the order the audit trail records them. */
  datatype Approval = CreditApproval(request: Id, tenant: Id, amount: int) | ChangeApproval(request: Id, tenant: Id, change: Change)

  /** Tenant kinds never change here; agents holds the travel agents. */
  datatype Accounts = Accounts(
    agents: set<Id>, profiles: map<Id, Profile>, credits: map<Id, CreditRequest>, ledger: seq<Entry>,
    changes: map<Id, ChangeRequest>, approvals: seq<Approval>)

  // ---------- wallet credits ----------

  /** The amount in minor units, when it is positive and has at most two decimals. */
  function MinorUnits(amount: real): Option<int> {
    var minor := (amount * 100.0).Floor;
    if amount > 0.0 && minor as real == amount * 100.0 then Some(minor) else None
  }

  function UpperChar(c: char): char {
    if 'a' <= c <= 'z' then (c as int - 32) as char else c
  }

  function Upper(s: string): (r: string)
    ensures |r| == |s|
    ensures forall i :: 0 <= i < |s| ==> r[i] == UpperChar(s[i])
  {
    if s == "" then "" else [UpperChar(s[0])] + Upper(s[1..])
  }

  const PAYMENT_METHODS := ["MANUAL", "UPI", "NEFT", "IMPS", "BANK_TRANSFER", "CHEQUE"]

  function PaymentMethod(given: Option<string>): string {
    Upper(Trim(if given.GetOr("") == "" then "MANUAL" else given.value))
  }

  function Reference(given: Option<string>): Option<string> {
    if given.None? || Trim(given.value) == "" then None else Some(Trim(given.value))
  }

  function SubmitCredit(a: Accounts, id: Id, actor: Id, tenant: Id, amount: real, reason: string, reference: Option<string>,
                        payment: Option<string>): Tx<Accounts> {
    if MinorUnits(amount).None? || Trim(reason) == "" then Abort(ValueInvalid)
    else if PaymentMethod(payment) !in PAYMENT_METHODS then Abort(PaymentMethodUnsupported)
    else if tenant !in a.agents then Abort(NotFound)
    else if id in a.credits then Abort(UniqueViolation)
    else Commit(a.(credits := a.credits[id := CreditRequest(tenant, MinorUnits(amount).value, PaymentMethod(payment), Reference(reference),
                                                            Trim(reason), actor, Waiting, None)]))
  }

  const DEFAULT_TERMS := Terms("Silver", 5.0, 0.0, 0, 0.0)

  /** The profile an upsert updates, or the one it creates. */
  function ProfileOf(a: Accounts, tenant: Id): Profile {
    if tenant in a.profiles then a.profiles[tenant] else Profile(DEFAULT_TERMS, 0)
  }

  function Credited(p: Profile, amount: int): Profile {
    p.(balance := p.balance + amount)
  }

  predicate EntryUnused(a: Accounts, entry: Id) {
    forall i :: 0 <= i < |a.ledger| ==> a.ledger[i].id != entry
  }

  function ApproveCredit(a: Accounts, id: Id, actor: Id, entry: Id): Tx<Accounts> {
    if id !in a.credits then Abort(NotFound)
    else
      var r := a.credits[id];
      if !r.review.Waiting? then Abort(NotPending)
      else if r.maker == actor then Abort(MakerCannotReview)
      else if r.tenant !in a.agents then Abort(TenantNotAgent)
      else if !EntryUnused(a, entry) then Abort(UniqueViolation)
      else
        var p := Credited(ProfileOf(a, r.tenant), r.amount);
        Commit(a.(profiles := a.profiles[r.tenant := p],
                  ledger := a.ledger + [Entry(entry, r.tenant, r.amount, p.balance, r.payment, r.reference, r.reason, r.maker)],
                  credits := a.credits[id := r.(review := Approved(actor), entry := Some(entry))],
                  approvals := a.approvals + [CreditApproval(id, r.tenant, r.amount)]))
  }

  function RejectCredit(a: Accounts, id: Id, actor: Id, reason: string): Tx<Accounts> {
    if Trim(reason) == "" then Abort(ReasonRequired)
    else if id !in a.credits then Abort(NotFound)
    else
      var r := a.credits[id];
      if !r.review.Waiting? then Abort(NotPending)
      else if r.maker == actor then Abort(MakerCannotReview)
      else Commit(a.(credits := a.credits[id := r.(review := Rejected(actor, Trim(reason)))]))
  }

  // ---------- commercial terms ----------

  predicate Percent(x: real) {
    0.0 <= x <= 100.0
  }

  predicate Whole(x: real) {
    x.Floor as real == x
  }

  /** The change as it is stored: the tier trimmed. */
  function Normalized(c: Change): Change {
    c.(tier := if c.tier.Some? then Some(Trim(c.tier.value)) else None)
  }

  predicate ChangeValid(c: Change) {
    && (c.tier.Some? || c.commission.Some? || c.creditLimit.Some? || c.creditDays.Some? || c.markup.Some?)
    && (c.tier.Some? ==> c.tier.value != "")
    && (c.commission.Some? ==> Percent(c.commission.value))
    && (c.creditLimit.Some? ==> c.creditLimit.value >= 0.0)
    && (c.creditDays.Some? ==> c.creditDays.value >= 0.0 && Whole(c.creditDays.value))
    && (c.markup.Some? ==> Percent(c.markup.value))
  }

  predicate TermsValid(t: Terms) {
    Percent(t.commission) && Percent(t.markup) && t.creditLimit >= 0.0 && t.creditDays >= 0
  }

  function Apply(t: Terms, c: Change): Terms {
    Terms(c.tier.GetOr(t.tier), c.commission.GetOr(t.commission), c.creditLimit.GetOr(t.creditLimit),
          if c.creditDays.Some? then c.creditDays.value.Floor else t.creditDays, c.markup.GetOr(t.markup))
  }

  predicate ChangeWaits(a: Accounts, tenant: Id) {
    exists id :: id in a.changes && a.changes[id].tenant == tenant && a.changes[id].review.Waiting?
  }

  function SubmitChange(a: Accounts, id: Id, actor: Id, tenant: Id, change: Change, reason: string): Tx<Accounts> {
    var text := Trim(reason);
    if tenant !in a.agents then Abort(NotFound)
    else if |text| < 5 || |text| > 500 then Abort(ReasonRequired)
    else if !ChangeValid(Normalized(change)) then Abort(ValueInvalid)
    else if ChangeWaits(a, tenant) then Abort(ChangePending)
    else if id in a.changes then Abort(UniqueViolation)
    else Commit(a.(changes := a.changes[id := ChangeRequest(tenant, Normalized(change), text, actor, Waiting)]))
  }

  function ApproveChange(a: Accounts, id: Id, actor: Id): Tx<Accounts> {
    if id !in a.changes then Abort(NotFound)
    else
      var r := a.changes[id];
      if !r.review.Waiting? then Abort(NotPending)
      else if r.maker == actor then Abort(MakerCannotReview)
      else if r.tenant !in a.agents then Abort(TenantNotAgent)
      else
        var p := ProfileOf(a, r.tenant);
        Commit(a.(profiles := a.profiles[r.tenant := p.(terms := Apply(p.terms, r.change))],
                  changes := a.changes[id := r.(review := Approved(actor))],
                  approvals := a.approvals + [ChangeApproval(id, r.tenant, r.change)]))
  }

  function RejectChange(a: Accounts, id: Id, actor: Id, reason: string): Tx<Accounts> {
    var text := Trim(reason);
    if |text| < 3 || |text| > 500 then Abort(ReasonRequired)
    else if id !in a.changes then Abort(NotFound)
    else
      var r := a.changes[id];
      if !r.review.Waiting? then Abort(NotPending)
      else if r.maker == actor then Abort(MakerCannotReview)
      else Commit(a.(changes := a.changes[id := r.(review := Rejected(actor, text))]))
  }

  // ---------- runs ----------

  datatype Step =
    | SubmitsCredit(id: Id, actor: Id, tenant: Id, amount: real, reason: string, reference: Option<string>, payment: Option<string>)
    | ApprovesCredit(id: Id, actor: Id, entry: Id)
    | RejectsCredit(id: Id, actor: Id, reason: string)
    | SubmitsChange(id: Id, actor: Id, tenant: Id, change: Change, reason: string)
    | ApprovesChange(id: Id, actor: Id)
    | RejectsChange(id: Id, actor: Id, reason: string)

  function StepTx(a: Accounts, step: Step): Tx<Accounts> {
    match step
    case SubmitsCredit(id, actor, tenant, amount, reason, reference, payment) =>
      SubmitCredit(a, id, actor, tenant, amount, reason, reference, payment)
    case ApprovesCredit(id, actor, entry) => ApproveCredit(a, id, actor, entry)
    case RejectsCredit(id, actor, reason) => RejectCredit(a, id, actor, reason)
    case SubmitsChange(id, actor, tenant, change, reason) => SubmitChange(a, id, actor, tenant, change, reason)
    case ApprovesChange(id, actor) => ApproveChange(a, id, actor)
    case RejectsChange(id, actor, reason) => RejectChange(a, id, actor, reason)
  }

  function Next(a: Accounts, step: Step): Accounts {
    var t := StepTx(a, step);
    if t.Commit? then t.value else a
  }

  function Run(a: Accounts, steps: seq<Step>): Accounts {
    if steps == [] then a else Next(Run(a, steps[..|steps| - 1]), steps[|steps| - 1])
  }

  /** Any agents with any valid terms and any balances, before the first request. */
  predicate Opening(a: Accounts) {
    && a.credits == map[] && a.changes == map[] && a.ledger == [] && a.approvals == []
    && forall t :: t in a.profiles ==> TermsValid(a.profiles[t].terms)
  }

  // ---------- balances ----------

  function LedgerSum(ledger: seq<Entry>, tenant: Id): int {
    if ledger == [] then 0
    else
      var e := ledger[|ledger| - 1];
      LedgerSum(ledger[..|ledger| - 1], tenant) + (if e.tenant == tenant then e.amount else 0)
  }

  predicate BalanceTold(o: Accounts, a: Accounts, tenant: Id) {
    ProfileOf(a, tenant).balance == ProfileOf(o, tenant).balance + LedgerSum(a.ledger, tenant)
  }

  predicate EntryTold(o: Accounts, a: Accounts, i: nat)
    requires i < |a.ledger|
  {
    var e := a.ledger[i];
    e.amount > 0 && e.balanceAfter == ProfileOf(o, e.tenant).balance + LedgerSum(a.ledger[..i + 1], e.tenant)
  }

  ghost predicate BalancesTold(o: Accounts, a: Accounts) {
    (forall t :: BalanceTold(o, a, t)) && (forall i :: 0 <= i < |a.ledger| ==> EntryTold(o, a, i))
  }

  predicate AmountsPositive(a: Accounts) {
    forall id :: id in a.credits ==> a.credits[id].amount > 0
  }

  lemma StepAmountsPositive(a: Accounts, step: Step)
    requires AmountsPositive(a)
    ensures AmountsPositive(Next(a, step))
  {
    hide Trim, PaymentMethod, Reference, ChangeValid, Normalized, MinorUnits, Apply, Credited, EntryUnused, ChangeWaits;
    if step.SubmitsCredit? && MinorUnits(step.amount).Some? { MinorIsPositive(step.amount); }
  }

  lemma MinorIsPositive(amount: real)
    requires MinorUnits(amount).Some?
    ensures MinorUnits(amount).value > 0
  {
  }

  lemma LedgerAppend(ledger: seq<Entry>, e: Entry, tenant: Id)
    ensures LedgerSum(ledger + [e], tenant) == LedgerSum(ledger, tenant) + (if e.tenant == tenant then e.amount else 0)
  {
    assert (ledger + [e])[..|ledger|] == ledger;
  }

  lemma ApprovalTellsBalances(o: Accounts, a: Accounts, id: Id, actor: Id, entry: Id)
    requires BalancesTold(o, a) && AmountsPositive(a) && ApproveCredit(a, id, actor, entry).Commit?
    ensures BalancesTold(o, ApproveCredit(a, id, actor, entry).value)
  {
    var a' := ApproveCredit(a, id, actor, entry).value;
    var n := |a.ledger|;
    var e := a'.ledger[n];
    forall t
      ensures BalanceTold(o, a', t)
    {
      assert BalanceTold(o, a, t);
      LedgerAppend(a.ledger, e, t);
    }
    forall i | 0 <= i < |a'.ledger|
      ensures EntryTold(o, a', i)
    {
      if i < n {
        assert EntryTold(o, a, i);
        assert a'.ledger[..i + 1] == a.ledger[..i + 1];
      } else {
        assert a'.ledger[..i + 1] == a'.ledger;
        assert BalanceTold(o, a', e.tenant);
      }
    }
  }

  lemma SameWallets(o: Accounts, a: Accounts, a': Accounts)
    requires BalancesTold(o, a) && a'.ledger == a.ledger && forall t :: ProfileOf(a', t).balance == ProfileOf(a, t).balance
    ensures BalancesTold(o, a')
  {
    forall t
      ensures BalanceTold(o, a', t)
    {
      assert BalanceTold(o, a, t);
    }
    forall i | 0 <= i < |a'.ledger|
      ensures EntryTold(o, a', i)
    {
      assert EntryTold(o, a, i);
    }
  }

  lemma StepTellsBalances(o: Accounts, a: Accounts, step: Step)
    requires BalancesTold(o, a) && AmountsPositive(a)
    ensures BalancesTold(o, Next(a, step))
  {
    hide BalancesTold, Trim, PaymentMethod, ChangeValid, MinorUnits, Apply;
    if step.ApprovesCredit? && StepTx(a, step).Commit? {
      ApprovalTellsBalances(o, a, step.id, step.actor, step.entry);
    } else {
      SameWallets(o, a, Next(a, step));
    }
  }

  // ---------- requests and entries, one to one ----------

  predicate Matches(r: CreditRequest, e: Entry) {
    r.review.Approved? && r.entry == Some(e.id) && r.tenant == e.tenant && r.amount == e.amount && r.maker == e.maker
  }

  ghost predicate HasEntry(a: Accounts, id: Id)
    requires id in a.credits
  {
    exists i :: 0 <= i < |a.ledger| && Matches(a.credits[id], a.ledger[i])
  }

  ghost predicate HasRequest(a: Accounts, i: nat)
    requires i < |a.ledger|
  {
    exists id :: id in a.credits && Matches(a.credits[id], a.ledger[i])
  }

  /** Every approved request has an entry of its own, every entry an approved request of its own. */
  ghost predicate OneToOne(a: Accounts) {
    && (forall id :: id in a.credits && a.credits[id].review.Approved? ==> HasEntry(a, id))
    && (forall i :: 0 <= i < |a.ledger| ==> HasRequest(a, i))
    && (forall i, j :: 0 <= i < j < |a.ledger| ==> a.ledger[i].id != a.ledger[j].id)
    && (forall x, y :: (x in a.credits && y in a.credits && a.credits[x].review.Approved? && a.credits[y].review.Approved?
                        && a.credits[x].entry == a.credits[y].entry) ==> x == y)
  }

  lemma ApprovalPairs(a: Accounts, id: Id, actor: Id, entry: Id)
    requires OneToOne(a) && ApproveCredit(a, id, actor, entry).Commit?
    ensures OneToOne(ApproveCredit(a, id, actor, entry).value)
  {
    var a' := ApproveCredit(a, id, actor, entry).value;
    var n := |a.ledger|;
    assert Matches(a'.credits[id], a'.ledger[n]);
    forall x | x in a'.credits && a'.credits[x].review.Approved?
      ensures HasEntry(a', x)
    {
      if x != id {
        assert HasEntry(a, x);
        var i :| 0 <= i < n && Matches(a.credits[x], a.ledger[i]);
        assert Matches(a'.credits[x], a'.ledger[i]);
      }
    }
    forall i | 0 <= i < |a'.ledger|
      ensures HasRequest(a', i)
    {
      if i < n {
        assert HasRequest(a, i);
        var x :| x in a.credits && Matches(a.credits[x], a.ledger[i]);
        assert Matches(a'.credits[x], a'.ledger[i]);
      }
    }
    forall x | x in a'.credits && x != id && a'.credits[x].review.Approved?
      ensures a'.credits[x].entry != Some(entry)
    {
      assert HasEntry(a, x);
    }
  }

  /** The approved requests and the ledger are as before. */
  predicate SamePairs(a: Accounts, a': Accounts) {
    && a'.ledger == a.ledger
    && (forall x :: x in a.credits && a.credits[x].review.Approved? ==> x in a'.credits && a'.credits[x] == a.credits[x])
    && (forall x :: x in a'.credits && a'.credits[x].review.Approved? ==> x in a.credits && a.credits[x] == a'.credits[x])
  }

  lemma UnpairedKeeps(a: Accounts, a': Accounts)
    requires OneToOne(a) && SamePairs(a, a')
    ensures OneToOne(a')
  {
    forall x | x in a'.credits && a'.credits[x].review.Approved?
      ensures HasEntry(a', x)
    {
      assert HasEntry(a, x);
    }
    forall i | 0 <= i < |a'.ledger|
      ensures HasRequest(a', i)
    {
      assert HasRequest(a, i);
      var x :| x in a.credits && Matches(a.credits[x], a.ledger[i]);
      assert Matches(a'.credits[x], a'.ledger[i]);
    }
  }

  lemma StepPairs(a: Accounts, step: Step)
    requires OneToOne(a)
    ensures OneToOne(Next(a, step))
  {
    hide OneToOne, Trim, PaymentMethod, ChangeValid, MinorUnits, Apply;
    if step.ApprovesCredit? && StepTx(a, step).Commit? {
      ApprovalPairs(a, step.id, step.actor, step.entry);
    } else {
      UnpairedKeeps(a, Next(a, step));
    }
  }

  // ---------- two pairs of eyes ----------

  predicate TwoPairs(review: Review, maker: Id) {
    review.Waiting? || review.checker != maker
  }

  /** Nobody reviewed their own request, every request is an agent's, and every stored change is valid. */
  predicate Checked(a: Accounts) {
    && (forall id :: id in a.credits ==> TwoPairs(a.credits[id].review, a.credits[id].maker) && a.credits[id].tenant in a.agents)
    && (forall id :: id in a.changes ==> TwoPairs(a.changes[id].review, a.changes[id].maker) && a.changes[id].tenant in a.agents
                                         && ChangeValid(a.changes[id].change))
    && (forall t :: t in a.profiles ==> TermsValid(a.profiles[t].terms))
  }

  lemma ApplyKeepsTerms(t: Terms, c: Change)
    requires TermsValid(t) && ChangeValid(c)
    ensures TermsValid(Apply(t, c))
  {
  }

  lemma StepChecked(a: Accounts, step: Step)
    requires Checked(a)
    ensures Checked(Next(a, step))
  {
    hide Trim, PaymentMethod, MinorUnits, Apply, ChangeValid, TermsValid;
    assert TermsValid(DEFAULT_TERMS) by { DefaultTermsValid(); }
    if step.ApprovesChange? && step.id in a.changes {
      ApplyKeepsTerms(ProfileOf(a, a.changes[step.id].tenant).terms, a.changes[step.id].change);
    }
  }

  lemma DefaultTermsValid()
    ensures TermsValid(DEFAULT_TERMS)
  {
  }

  // ---------- one change at a time ----------

  predicate OneWaiting(a: Accounts) {
    forall x, y :: (x in a.changes && y in a.changes && a.changes[x].review.Waiting? && a.changes[y].review.Waiting?
                    && a.changes[x].tenant == a.changes[y].tenant) ==> x == y
  }

  lemma StepOneWaiting(a: Accounts, step: Step)
    requires OneWaiting(a)
    ensures OneWaiting(Next(a, step))
  {
    hide Trim, PaymentMethod, MinorUnits, Apply, ChangeValid;
  }

  // ---------- terms are the fold of the approved changes ----------

  function Folded(t: Terms, approvals: seq<Approval>, tenant: Id): Terms {
    if approvals == [] then t
    else
      var last := approvals[|approvals| - 1];
      var before := Folded(t, approvals[..|approvals| - 1], tenant);
      if last.ChangeApproval? && last.tenant == tenant then Apply(before, last.change) else before
  }

  ghost predicate TermsTold(o: Accounts, a: Accounts) {
    forall t :: ProfileOf(a, t).terms == Folded(ProfileOf(o, t).terms, a.approvals, t)
  }

  lemma FoldAppend(t: Terms, approvals: seq<Approval>, x: Approval, tenant: Id)
    ensures Folded(t, approvals + [x], tenant)
            == if x.ChangeApproval? && x.tenant == tenant then Apply(Folded(t, approvals, tenant), x.change) else Folded(t, approvals, tenant)
  {
    assert (approvals + [x])[..|approvals|] == approvals;
  }

  lemma StepTellsTerms(o: Accounts, a: Accounts, step: Step)
    requires TermsTold(o, a)
    ensures TermsTold(o, Next(a, step))
  {
    hide Trim, PaymentMethod, MinorUnits, Apply, ChangeValid;
    var a' := Next(a, step);
    forall t
      ensures ProfileOf(a', t).terms == Folded(ProfileOf(o, t).terms, a'.approvals, t)
    {
      assert ProfileOf(a, t).terms == Folded(ProfileOf(o, t).terms, a.approvals, t);
      if a'.approvals != a.approvals {
        FoldAppend(ProfileOf(o, t).terms, a.approvals, a'.approvals[|a.approvals|], t);
      }
    }
  }

  // ---------- terms, field by field ----------

  /** An approved change gives the agent exactly the values it names and leaves every other field as it was; an agent without a profile
      starts from the default one. Balances and other agents are untouched. */
  lemma ApprovalTold(a: Accounts, id: Id, actor: Id)
    requires ApproveChange(a, id, actor).Commit?
    ensures id in a.changes
    ensures var r := a.changes[id];
            var a' := ApproveChange(a, id, actor).value;
            var was := if r.tenant in a.profiles then a.profiles[r.tenant] else Profile(Terms("Silver", 5.0, 0.0, 0, 0.0), 0);
            && r.tenant in a'.profiles && a'.profiles == a.profiles[r.tenant := a'.profiles[r.tenant]]
            && a'.profiles[r.tenant].balance == was.balance
            && var t := a'.profiles[r.tenant].terms;
               && t.tier == (if r.change.tier.Some? then r.change.tier.value else was.terms.tier)
               && t.commission == (if r.change.commission.Some? then r.change.commission.value else was.terms.commission)
               && t.creditLimit == (if r.change.creditLimit.Some? then r.change.creditLimit.value else was.terms.creditLimit)
               && t.creditDays == (if r.change.creditDays.Some? then r.change.creditDays.value.Floor else was.terms.creditDays)
               && t.markup == (if r.change.markup.Some? then r.change.markup.value else was.terms.markup)
  {
  }

  /** The last value approved changes of this agent gave a field, else the one it opened with. */
  function LastGiven<T>(approvals: seq<Approval>, tenant: Id, field: Change -> Option<T>, opening: T): T {
    if approvals == [] then opening
    else
      var last := approvals[|approvals| - 1];
      if last.ChangeApproval? && last.tenant == tenant && field(last.change).Some? then field(last.change).value
      else LastGiven(approvals[..|approvals| - 1], tenant, field, opening)
  }

  function GivenTier(c: Change): Option<string> { c.tier }

  function GivenCommission(c: Change): Option<real> { c.commission }

  function GivenLimit(c: Change): Option<real> { c.creditLimit }

  function GivenDays(c: Change): Option<int> { if c.creditDays.Some? then Some(c.creditDays.value.Floor) else None }

  function GivenMarkup(c: Change): Option<real> { c.markup }

  ghost predicate FieldsTold(o: Terms, t: Terms, approvals: seq<Approval>, tenant: Id) {
    && t.tier == LastGiven(approvals, tenant, GivenTier, o.tier)
    && t.commission == LastGiven(approvals, tenant, GivenCommission, o.commission)
    && t.creditLimit == LastGiven(approvals, tenant, GivenLimit, o.creditLimit)
    && t.creditDays == LastGiven(approvals, tenant, GivenDays, o.creditDays)
    && t.markup == LastGiven(approvals, tenant, GivenMarkup, o.markup)
  }

  lemma {:induction false} FoldGivesLast(o: Terms, approvals: seq<Approval>, tenant: Id)
    ensures FieldsTold(o, Folded(o, approvals, tenant), approvals, tenant)
    decreases |approvals|
  {
    if approvals != [] {
      FoldGivesLast(o, approvals[..|approvals| - 1], tenant);
    }
  }

  /** The last value given is the one given by an approval that no later one of this agent overrides. */
  lemma {:induction false} LastGivenIsLast<T>(approvals: seq<Approval>, tenant: Id, field: Change -> Option<T>, opening: T, i: nat)
    requires i < |approvals| && Gives(approvals[i], tenant, field)
    requires forall j :: i < j < |approvals| ==> !Gives(approvals[j], tenant, field)
    ensures LastGiven(approvals, tenant, field, opening) == field(approvals[i].change).value
    decreases |approvals|
  {
    if i < |approvals| - 1 {
      assert !Gives(approvals[|approvals| - 1], tenant, field);
      LastGivenIsLast(approvals[..|approvals| - 1], tenant, field, opening, i);
    }
  }

  predicate Gives<T>(x: Approval, tenant: Id, field: Change -> Option<T>) {
    x.ChangeApproval? && x.tenant == tenant && field(x.change).Some?
  }

  /** The audit trail lists each approved change once, as it was proposed, and nothing else. */
  ghost predicate TrailTrue(a: Accounts) {
    && (forall id :: id in a.changes && a.changes[id].review.Approved? ==> ChangeApproval(id, a.changes[id].tenant, a.changes[id].change) in a.approvals)
    && (forall i :: 0 <= i < |a.approvals| && a.approvals[i].ChangeApproval? ==>
          var x := a.approvals[i]; x.request in a.changes && a.changes[x.request].review.Approved?)
    && (forall i, j :: 0 <= i < j < |a.approvals| && a.approvals[i].ChangeApproval? && a.approvals[j].ChangeApproval? ==>
          a.approvals[i].request != a.approvals[j].request)
  }

  lemma StepTrailTrue(a: Accounts, step: Step)
    requires TrailTrue(a)
    ensures TrailTrue(Next(a, step))
  {
    hide Trim, PaymentMethod, MinorUnits, Apply, ChangeValid;
  }

  // ---------- every run ----------

  ghost predicate Governed(o: Accounts, a: Accounts) {
    && BalancesTold(o, a) && AmountsPositive(a) && OneToOne(a) && Checked(a) && OneWaiting(a) && TermsTold(o, a) && TrailTrue(a)
    && a.agents == o.agents
  }

  lemma OpeningIsGoverned(o: Accounts)
    requires Opening(o)
    ensures Governed(o, o)
  {
  }

  lemma StepGoverned(o: Accounts, a: Accounts, step: Step)
    requires Governed(o, a)
    ensures Governed(o, Next(a, step))
  {
    hide BalancesTold, AmountsPositive, OneToOne, Checked, OneWaiting, TermsTold, TrailTrue, Trim, PaymentMethod, MinorUnits, Apply, ChangeValid;
    StepTellsBalances(o, a, step);
    StepAmountsPositive(a, step);
    StepPairs(a, step);
    StepChecked(a, step);
    StepOneWaiting(a, step);
    StepTellsTerms(o, a, step);
    StepTrailTrue(a, step);
  }

  lemma {:induction false} RunGoverned(o: Accounts, steps: seq<Step>)
    requires Opening(o)
    ensures Governed(o, Run(o, steps))
    decreases |steps|
  {
    hide Governed, Next;
    if steps == [] {
      OpeningIsGoverned(o);
    } else {
      RunGoverned(o, steps[..|steps| - 1]);
      StepGoverned(o, Run(o, steps[..|steps| - 1]), steps[|steps| - 1]);
    }
  }

  /** The way of payment is taken trimmed and in capitals, and is manual when none is given. */
  lemma PaymentTold(given: Option<string>)
    ensures given.GetOr("") == "" ==> PaymentMethod(given) == "MANUAL"
    ensures given.GetOr("") != "" ==>
              var text := Trim(given.value);
              && |PaymentMethod(given)| == |text|
              && forall i :: 0 <= i < |text| ==>
                   PaymentMethod(given)[i] == if 'a' <= text[i] <= 'z' then (text[i] as int - 32) as char else text[i]
  {
    hide Trim, Upper;
    if given.GetOr("") == "" {
      TrimKeepsTrimmed("MANUAL");
      UpperKeepsCapitals("MANUAL");
    }
  }

  lemma UpperKeepsCapitals(s: string)
    requires forall i :: 0 <= i < |s| ==> !('a' <= s[i] <= 'z')
    ensures Upper(s) == s
  {
  }

  /** A credit is filed exactly for a positive amount of whole minor units, given with a reason and a known way of payment, under a new id,
      to an agent; it waits, for that very amount, and moves no money. */
  lemma CreditFiled(a: Accounts, id: Id, actor: Id, tenant: Id, amount: real, reason: string, reference: Option<string>, payment: Option<string>)
    ensures SubmitCredit(a, id, actor, tenant, amount, reason, reference, payment).Commit? <==>
              && amount > 0.0 && Whole(amount * 100.0) && Trim(reason) != "" && tenant in a.agents && id !in a.credits
              && PaymentMethod(payment) in ["MANUAL", "UPI", "NEFT", "IMPS", "BANK_TRANSFER", "CHEQUE"]
    ensures SubmitCredit(a, id, actor, tenant, amount, reason, reference, payment).Commit? ==>
              var a' := SubmitCredit(a, id, actor, tenant, amount, reason, reference, payment).value;
              && a' == a.(credits := a'.credits) && id in a'.credits && a'.credits == a.credits[id := a'.credits[id]]
              && a'.credits[id].amount as real == amount * 100.0 && a'.credits[id].tenant == tenant && a'.credits[id].maker == actor
              && a'.credits[id].review.Waiting? && a'.credits[id].entry.None? && a'.credits[id].reason == Trim(reason)
              && a'.credits[id].reference == (if reference.None? || Trim(reference.value) == "" then None else Some(Trim(reference.value)))
  {
    hide Trim, Upper;
  }

  /** Approving a credit adds exactly its amount to the wallet and writes one entry that repeats the request. */
  lemma CreditApprovalTold(a: Accounts, id: Id, actor: Id, entry: Id)
    requires ApproveCredit(a, id, actor, entry).Commit?
    ensures id in a.credits
    ensures var r, a' := a.credits[id], ApproveCredit(a, id, actor, entry).value;
            var was := if r.tenant in a.profiles then a.profiles[r.tenant] else Profile(Terms("Silver", 5.0, 0.0, 0, 0.0), 0);
            && a'.profiles == a.profiles[r.tenant := Profile(was.terms, was.balance + r.amount)]
            && a'.ledger == a.ledger + [Entry(entry, r.tenant, r.amount, was.balance + r.amount, r.payment, r.reference, r.reason, r.maker)]
            && a'.credits == a.credits[id := r.(review := Approved(actor), entry := Some(entry))] && a'.changes == a.changes
  {
  }

  /** A change of terms is filed exactly when it names something, every value it names is within bounds, the reason has 5 to 500 characters
      and no other change of that agent waits; it is filed as given but for the spaces around the tier. */
  lemma ChangeFiled(a: Accounts, id: Id, actor: Id, tenant: Id, change: Change, reason: string)
    ensures SubmitChange(a, id, actor, tenant, change, reason).Commit? <==>
              && tenant in a.agents && id !in a.changes && 5 <= |Trim(reason)| <= 500
              && (change.tier.Some? || change.commission.Some? || change.creditLimit.Some? || change.creditDays.Some? || change.markup.Some?)
              && (change.tier.Some? ==> Trim(change.tier.value) != "")
              && (change.commission.Some? ==> 0.0 <= change.commission.value <= 100.0)
              && (change.creditLimit.Some? ==> 0.0 <= change.creditLimit.value)
              && (change.creditDays.Some? ==> 0.0 <= change.creditDays.value && change.creditDays.value.Floor as real == change.creditDays.value)
              && (change.markup.Some? ==> 0.0 <= change.markup.value <= 100.0)
              && (forall x :: x in a.changes && a.changes[x].tenant == tenant ==> !a.changes[x].review.Waiting?)
    ensures SubmitChange(a, id, actor, tenant, change, reason).Commit? ==>
              var a' := SubmitChange(a, id, actor, tenant, change, reason).value;
              && a' == a.(changes := a'.changes) && id in a'.changes && a'.changes == a.changes[id := a'.changes[id]]
              && var r := a'.changes[id];
                 && r.tenant == tenant && r.maker == actor && r.review.Waiting? && r.reason == Trim(reason)
                 && r.change.commission == change.commission && r.change.creditLimit == change.creditLimit
                 && r.change.creditDays == change.creditDays && r.change.markup == change.markup
                 && r.change.tier == (if change.tier.Some? then Some(Trim(change.tier.value)) else None)
  {
    hide Trim;
  }

  /** A rejection is taken exactly from somebody else, with words, 3 to 500 characters for a change, while the request waits; it records who
      and why and touches nothing else. */
  lemma RejectionTold(a: Accounts, id: Id, actor: Id, reason: string)
    ensures RejectCredit(a, id, actor, reason).Commit? <==>
              Trim(reason) != "" && id in a.credits && a.credits[id].review.Waiting? && a.credits[id].maker != actor
    ensures RejectCredit(a, id, actor, reason).Commit? ==>
              RejectCredit(a, id, actor, reason).value == a.(credits := a.credits[id := a.credits[id].(review := Rejected(actor, Trim(reason)))])
    ensures RejectChange(a, id, actor, reason).Commit? <==>
              3 <= |Trim(reason)| <= 500 && id in a.changes && a.changes[id].review.Waiting? && a.changes[id].maker != actor
    ensures RejectChange(a, id, actor, reason).Commit? ==>
              RejectChange(a, id, actor, reason).value == a.(changes := a.changes[id := a.changes[id].(review := Rejected(actor, Trim(reason)))])
  {
    hide Trim;
  }

  /** On every run a wallet holds what it opened with plus its ledger entries, and each entry shows the balance at that point. */
  lemma WalletOnEveryRun(o: Accounts, steps: seq<Step>, tenant: Id, i: nat)
    requires Opening(o)
    ensures var a := Run(o, steps);
            && ProfileOf(a, tenant).balance == ProfileOf(o, tenant).balance + LedgerSum(a.ledger, tenant)
            && (i < |a.ledger| ==>
                  a.ledger[i].balanceAfter == ProfileOf(o, a.ledger[i].tenant).balance + LedgerSum(a.ledger[..i + 1], a.ledger[i].tenant))
  {
    hide Run, ProfileOf, LedgerSum;
    RunGoverned(o, steps);
    assert BalanceTold(o, Run(o, steps), tenant);
    if i < |Run(o, steps).ledger| { assert EntryTold(o, Run(o, steps), i); }
  }

  /** On every run an agent's terms are the approved changes applied in order of approval to the terms it opened with: each field is the last
      value an approved change of that agent gave it, else the opening one. They stay within bounds, and at most one change per agent waits. */
  lemma TermsOnEveryRun(o: Accounts, steps: seq<Step>, tenant: Id)
    requires Opening(o)
    ensures var a := Run(o, steps);
            && ProfileOf(a, tenant).terms == Folded(ProfileOf(o, tenant).terms, a.approvals, tenant)
            && FieldsTold(ProfileOf(o, tenant).terms, ProfileOf(a, tenant).terms, a.approvals, tenant)
            && TermsValid(ProfileOf(a, tenant).terms)
            && (forall x, y :: (x in a.changes && y in a.changes && a.changes[x].review.Waiting? && a.changes[y].review.Waiting?
                                && a.changes[x].tenant == a.changes[y].tenant == tenant) ==> x == y)
  {
    hide Run, Folded, TermsValid, FieldsTold;
    RunGoverned(o, steps);
    FoldGivesLast(ProfileOf(o, tenant).terms, Run(o, steps).approvals, tenant);
    DefaultTermsValid();
  }

  /** On every run a waiting request can be approved by anyone but its maker: it is never found to be no agent's. */
  lemma ApprovalOnEveryRun(o: Accounts, steps: seq<Step>, id: Id, actor: Id, entry: Id)
    requires Opening(o)
    ensures var a := Run(o, steps);
            && (ApproveChange(a, id, actor).Commit? <==> id in a.changes && a.changes[id].review.Waiting? && a.changes[id].maker != actor)
            && (EntryUnused(a, entry) ==>
                  (ApproveCredit(a, id, actor, entry).Commit? <==> id in a.credits && a.credits[id].review.Waiting? && a.credits[id].maker != actor))
  {
    hide Run, BalancesTold, OneToOne, TermsTold, TrailTrue, OneWaiting;
    RunGoverned(o, steps);
  }

  // ---------- the service ----------

  class AgentDesk {
    var agents: set<Id>
    var profiles: map<Id, Profile>
    var credits: map<Id, CreditRequest>
    var ledger: seq<Entry>
    var changes: map<Id, ChangeRequest>
    var approvals: seq<Approval>

    function Snapshot(): Accounts
      reads this
    {
      Accounts(agents, profiles, credits, ledger, changes, approvals)
    }

    constructor (a: Accounts)
      ensures Snapshot() == a
    {
      agents, profiles, credits, ledger, changes, approvals := a.agents, a.profiles, a.credits, a.ledger, a.changes, a.approvals;
    }

    method CreditAgentWallet(id: Id, actor: Id, tenant: Id, amount: real, reason: string, reference: Option<string>, payment: Option<string>)
      returns (failed: Option<Error>)
      modifies `credits
      ensures failed.Some? ==> SubmitCredit(old(Snapshot()), id, actor, tenant, amount, reason, reference, payment) == Abort(failed.value)
                               && Snapshot() == old(Snapshot())
      ensures failed.None? ==> SubmitCredit(old(Snapshot()), id, actor, tenant, amount, reason, reference, payment) == Commit(Snapshot())
    {
      hide MinorUnits, Trim, PaymentMethod, Reference;
      var minor := MinorUnits(amount);
      if minor.None? || Trim(reason) == "" { return Some(ValueInvalid); }
      var paymentMethod := PaymentMethod(payment);
      if paymentMethod !in PAYMENT_METHODS { return Some(PaymentMethodUnsupported); }
      if tenant !in agents { return Some(NotFound); }
      if id in credits { return Some(UniqueViolation); }
      credits := credits[id := CreditRequest(tenant, minor.value, paymentMethod, Reference(reference), Trim(reason), actor, Waiting, None)];
      return None;
    }

    method EntryIdTaken(entry: Id) returns (taken: bool)
      ensures taken <==> !EntryUnused(Snapshot(), entry)
    {
      for i := 0 to |ledger|
        invariant forall j :: 0 <= j < i ==> ledger[j].id != entry
      {
        if ledger[i].id == entry { return true; }
      }
      return false;
    }

    method ApproveAgentWalletCredit(id: Id, actor: Id, entry: Id) returns (failed: Option<Error>)
      modifies this
      ensures failed.Some? ==> ApproveCredit(old(Snapshot()), id, actor, entry) == Abort(failed.value) && Snapshot() == old(Snapshot())
      ensures failed.None? ==> ApproveCredit(old(Snapshot()), id, actor, entry) == Commit(Snapshot())
    {
      if id !in credits { return Some(NotFound); }
      var request := credits[id];
      if !request.review.Waiting? { return Some(NotPending); }
      if request.maker == actor { return Some(MakerCannotReview); }
      if request.tenant !in agents { return Some(TenantNotAgent); }
      var taken := EntryIdTaken(entry);
      if taken { return Some(UniqueViolation); }
      if request.tenant in profiles {
        var p := profiles[request.tenant];
        profiles := profiles[request.tenant := p.(balance := p.balance + request.amount)];
      } else {
        profiles := profiles[request.tenant := Profile(DEFAULT_TERMS, request.amount)];
      }
      ledger := ledger + [Entry(entry, request.tenant, request.amount, profiles[request.tenant].balance, request.payment,
                                request.reference, request.reason, request.maker)];
      credits := credits[id := request.(review := Approved(actor), entry := Some(entry))];
      approvals := approvals + [CreditApproval(id, request.tenant, request.amount)];
      return None;
    }

    method RejectAgentWalletCredit(id: Id, actor: Id, reason: string) returns (failed: Option<Error>)
      modifies `credits
      ensures failed.Some? ==> RejectCredit(old(Snapshot()), id, actor, reason) == Abort(failed.value) && Snapshot() == old(Snapshot())
      ensures failed.None? ==> RejectCredit(old(Snapshot()), id, actor, reason) == Commit(Snapshot())
    {
      if Trim(reason) == "" { return Some(ReasonRequired); }
      if id !in credits { return Some(NotFound); }
      var request := credits[id];
      if !request.review.Waiting? { return Some(NotPending); }
      if request.maker == actor { return Some(MakerCannotReview); }
      credits := credits[id := request.(review := Rejected(actor, Trim(reason)))];
      return None;
    }

    /** A change of this agent that still waits, if there is one. */
    method FindWaiting(tenant: Id) returns (waiting: bool)
      ensures waiting <==> ChangeWaits(Snapshot(), tenant)
    {
      var ids := changes.Keys;
      while ids != {}
        invariant ids <= changes.Keys
        invariant forall id :: id in changes.Keys - ids ==> !(changes[id].tenant == tenant && changes[id].review.Waiting?)
        decreases |ids|
      {
        var id :| id in ids;
        if changes[id].tenant == tenant && changes[id].review.Waiting? { return true; }
        ids := ids - {id};
      }
      return false;
    }

    method UpdateAgentCommercials(id: Id, actor: Id, tenant: Id, change: Change, reason: string) returns (failed: Option<Error>)
      modifies `changes
      ensures failed.Some? ==> SubmitChange(old(Snapshot()), id, actor, tenant, change, reason) == Abort(failed.value)
                               && Snapshot() == old(Snapshot())
      ensures failed.None? ==> SubmitChange(old(Snapshot()), id, actor, tenant, change, reason) == Commit(Snapshot())
    {
      if tenant !in agents { return Some(NotFound); }
      var text := Trim(reason);
      if |text| < 5 || |text| > 500 { return Some(ReasonRequired); }
      var stored := Normalized(change);
      if !ChangeValid(stored) { return Some(ValueInvalid); }
      var waiting := FindWaiting(tenant);
      if waiting { return Some(ChangePending); }
      if id in changes { return Some(UniqueViolation); }
      changes := changes[id := ChangeRequest(tenant, stored, text, actor, Waiting)];
      return None;
    }

    method ApproveAgentCommercialChange(id: Id, actor: Id) returns (failed: Option<Error>)
      modifies `profiles, `changes, `approvals
      ensures failed.Some? ==> ApproveChange(old(Snapshot()), id, actor) == Abort(failed.value) && Snapshot() == old(Snapshot())
      ensures failed.None? ==> ApproveChange(old(Snapshot()), id, actor) == Commit(Snapshot())
    {
      if id !in changes { return Some(NotFound); }
      var request := changes[id];
      if !request.review.Waiting? { return Some(NotPending); }
      if request.maker == actor { return Some(MakerCannotReview); }
      if request.tenant !in agents { return Some(TenantNotAgent); }
      var before := if request.tenant in profiles then profiles[request.tenant] else Profile(DEFAULT_TERMS, 0);
      profiles := profiles[request.tenant := before.(terms := Apply(before.terms, request.change))];
      changes := changes[id := request.(review := Approved(actor))];
      approvals := approvals + [ChangeApproval(id, request.tenant, request.change)];
      return None;
    }

    method RejectAgentCommercialChange(id: Id, actor: Id, reason: string) returns (failed: Option<Error>)
      modifies `changes
      ensures failed.Some? ==> RejectChange(old(Snapshot()), id, actor, reason) == Abort(failed.value) && Snapshot() == old(Snapshot())
      ensures failed.None? ==> RejectChange(old(Snapshot()), id, actor, reason) == Commit(Snapshot())
    {
      var text := Trim(reason);
      if |text| < 3 || |text| > 500 { return Some(ReasonRequired); }
      if id !in changes { return Some(NotFound); }
      var request := changes[id];
      if !request.review.Waiting? { return Some(NotPending); }
      if request.maker == actor { return Some(MakerCannotReview); }
      changes := changes[id := request.(review := Rejected(actor, text))];
      return None;
    }
  }
}
