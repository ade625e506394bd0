/** The split of a booking amount into charge and refund, in minor units. */
module Charges {
  import opened Text
  import opened Policy
  import opened Calendar

  /** Rounding to two decimals, half away from zero, of a value counted in minor units. */
  function Round(x: real): int {
    if x >= 0.0 then (x + 0.5).Floor else -((-x + 0.5).Floor)
  }

  lemma RoundIsNearest(x: real, n: int)
    requires x >= 0.0
    ensures n == Round(x) <==> n as real - 0.5 <= x < n as real + 0.5
  {
  }

  function RawCharge(amount: int, rule: Rule): real {
    if rule.chargeType.Percentage? then amount as real * DecimalValue(rule.chargeValue) / 100.0
    else DecimalValue(rule.chargeValue) * 100.0
  }

  function Clamped(amount: int, rule: Rule): real {
    var raw := RawCharge(amount, rule);
    if raw > amount as real then amount as real else raw
  }

  function Charge(amount: int, rule: Rule): int {
    Round(Clamped(amount, rule))
  }

  function Refund(amount: int, rule: Rule): int {
    Round((amount - Charge(amount, rule)) as real)
  }

  /** Exact split: nothing is lost, nothing is negative, and the charge is the nearest minor unit to the clamped value. */
  lemma SplitIsExact(amount: nat, rule: Rule)
    requires DecimalValue(rule.chargeValue) >= 0.0
    ensures 0 <= Charge(amount, rule) <= amount
    ensures Charge(amount, rule) + Refund(amount, rule) == amount
    ensures var gap := Charge(amount, rule) as real - Clamped(amount, rule); -0.5 < gap <= 0.5
  {
    hide Clamped, DecimalValue;
    NonNegativeProduct(amount as real, DecimalValue(rule.chargeValue));
    ClampedWithin(amount, rule);
    RoundIsNearest(Clamped(amount, rule), Charge(amount, rule));
  }

  lemma ClampedWithin(amount: nat, rule: Rule)
    requires amount as real * DecimalValue(rule.chargeValue) >= 0.0 && DecimalValue(rule.chargeValue) >= 0.0
    ensures 0.0 <= Clamped(amount, rule) <= amount as real
  {
    hide DecimalValue;
  }

  /** An absolute rule charges the money its text says, never more than the booking. */
  lemma AbsoluteRuleCharges(amount: nat, rule: Rule)
    requires rule.chargeType.Absolute? && ParseMoney(rule.chargeValue).Some?
    ensures var n := ParseMoney(rule.chargeValue).value; Charge(amount, rule) == if n < amount then n else amount
  {
    ParseMoneyIsDecimal(rule.chargeValue);
    hide DecimalValue, ParseMoney;
  }

  /** A percentage rule charges its share of the amount, to the nearest minor unit; from a hundred per cent on, the whole amount. */
  lemma PercentageRuleCharges(amount: nat, rule: Rule)
    requires rule.chargeType.Percentage? && DecimalValue(rule.chargeValue) >= 0.0
    ensures DecimalValue(rule.chargeValue) <= 100.0 ==>
              -0.5 < Charge(amount, rule) as real - amount as real * DecimalValue(rule.chargeValue) / 100.0 <= 0.5
    ensures DecimalValue(rule.chargeValue) >= 100.0 ==> Charge(amount, rule) == amount
  {
    hide DecimalValue, Clamped, Charge;
    var v := DecimalValue(rule.chargeValue);
    var p := v / 100.0;
    var share := amount as real * p;
    assert (v <= 100.0 <==> p <= 1.0) && (v == 100.0 ==> share == amount as real);
    PercentageIsShare(amount as real, v);
    ClampedShare(amount, rule, share);
    Share(amount as real, p, share);
    NearestOf(amount, rule);
  }

  lemma NearestOf(amount: nat, rule: Rule)
    ensures Clamped(amount, rule) >= 0.0 ==> -0.5 < Charge(amount, rule) as real - Clamped(amount, rule) <= 0.5
    ensures Clamped(amount, rule) == amount as real ==> Charge(amount, rule) == amount
  {
    hide Clamped;
  }

  function AtMost(x: real, cap: real): real {
    if x > cap then cap else x
  }

  lemma ShareGrowsSlowly(a: real, b: real, p: real, x: real, y: real)
    requires 0.0 <= a <= b && 0.0 <= p && x == a * p && y == b * p
    ensures AtMost(x, a) <= AtMost(y, b) <= AtMost(x, a) + (b - a)
  {
    var z := (b - a) * p;
    Distributes(b, a, p);
    assert y == x + z;
    Share(a, p, x);
    Share(b, p, y);
    Share(b - a, p, z);
  }

  lemma Distributes(b: real, a: real, p: real)
    ensures b * p == a * p + (b - a) * p
  {
  }

  lemma Share(a: real, p: real, x: real)
    requires 0.0 <= a && 0.0 <= p && x == a * p
    ensures if p <= 1.0 then 0.0 <= x <= a else x >= a
  {
    NonNegativeProduct(a, p);
    if p <= 1.0 {
      NonNegativeProduct(a, 1.0 - p);
      Distributes(1.0, p, a);
    } else {
      NonNegativeProduct(a, p - 1.0);
      Distributes(p, 1.0, a);
    }
  }

  lemma NonNegativeProduct(a: real, b: real)
    requires a >= 0.0 && b >= 0.0
    ensures a * b >= 0.0
  {
  }

  lemma PercentageIsShare(amount: real, v: real)
    ensures amount * v / 100.0 == amount * (v / 100.0)
  {
  }

  /** A dearer booking never has a smaller clamped charge, nor one that grows faster than the amount. */
  lemma ClampedGrowsSlowly(a: nat, b: nat, rule: Rule)
    requires a <= b && DecimalValue(rule.chargeValue) >= 0.0
    ensures Clamped(a, rule) <= Clamped(b, rule) <= Clamped(a, rule) + (b - a) as real
  {
    if rule.chargeType.Percentage? {
      hide Clamped;
      PercentageGrowsSlowly(a, b, rule);
    } else {
      AbsoluteGrowsSlowly(a, b, rule);
    }
  }

  lemma AbsoluteGrowsSlowly(a: nat, b: nat, rule: Rule)
    requires a <= b && !rule.chargeType.Percentage?
    ensures Clamped(a, rule) <= Clamped(b, rule) <= Clamped(a, rule) + (b - a) as real
  {
    hide DecimalValue;
  }

  lemma PercentageGrowsSlowly(a: nat, b: nat, rule: Rule)
    requires a <= b && DecimalValue(rule.chargeValue) >= 0.0 && rule.chargeType.Percentage?
    ensures Clamped(a, rule) <= Clamped(b, rule) <= Clamped(a, rule) + (b - a) as real
  {
    hide Clamped, AtMost, DecimalValue;
    var p := DecimalValue(rule.chargeValue) / 100.0;
    var x, y := a as real * p, b as real * p;
    ClampedShare(a, rule, x);
    ClampedShare(b, rule, y);
    ShareGrowsSlowly(a as real, b as real, p, x, y);
  }

  lemma ClampedShare(amount: nat, rule: Rule, share: real)
    requires rule.chargeType.Percentage? && share == amount as real * (DecimalValue(rule.chargeValue) / 100.0)
    ensures Clamped(amount, rule) == AtMost(share, amount as real)
  {
    hide DecimalValue;
    PercentageIsShare(amount as real, DecimalValue(rule.chargeValue));
  }

  /** Charge and refund are both non-decreasing in the amount. */
  lemma SplitIsMonotoneInAmount(a: nat, b: nat, rule: Rule)
    requires a <= b && DecimalValue(rule.chargeValue) >= 0.0
    ensures Charge(a, rule) <= Charge(b, rule)
    ensures Refund(a, rule) <= Refund(b, rule)
  {
    SplitIsExact(a, rule);
    SplitIsExact(b, rule);
    ClampedGrowsSlowly(a, b, rule);
  }

  // ---------- cancelling earlier ----------

  /** The charge for cancelling on a covered day of an accepted policy. */
  ghost predicate ChargedOn(rules: seq<Rule>, amount: int, service: CivilDate, cancelled: CivilDate, charge: int, refund: int) {
    && Valid(service) && Valid(cancelled)
    && var found := Matches(rules, DateDifference(service, cancelled));
       |found| == 1 && charge == Charge(amount, found[0]) && refund == Refund(amount, found[0])
  }

  ghost predicate NoDearerWithDistance(rules: seq<Rule>, amount: int) {
    forall i, j :: 0 <= i < j < |rules| && j == i + 1 ==> Charge(amount, rules[j]) <= Charge(amount, rules[i])
  }

  lemma {:induction false} DistanceLowersCharge(rules: seq<Rule>, amount: int, i: nat, j: nat)
    requires NoDearerWithDistance(rules, amount) && i <= j < |rules|
    ensures Charge(amount, rules[j]) <= Charge(amount, rules[i])
    decreases j - i
  {
    if i < j {
      DistanceLowersCharge(rules, amount, i, j - 1);
    }
  }

  lemma CoveringIndex(rules: seq<Rule>, days: int) returns (i: nat)
    requires Accepted(rules) && |Matches(rules, days)| == 1
    ensures i < |rules| && Covers(rules[i], days) && Matches(rules, days) == [rules[i]]
  {
    var r := Matches(rules, days)[0];
    assert r in Matches(rules, days);
    i :| 0 <= i < |rules| && rules[i] == r;
  }

  /** Cancelling on an earlier covered day is never dearer, when the bands get no dearer with distance. */
  lemma EarlierIsNeverDearer(rules: seq<Rule>, amount: nat, service: CivilDate,
                             early: CivilDate, late: CivilDate, c0: int, r0: int, c1: int, r1: int)
    requires Accepted(rules) && NoDearerWithDistance(rules, amount)
    requires ChargedOn(rules, amount, service, early, c0, r0) && ChargedOn(rules, amount, service, late, c1, r1)
    requires Before(early, late)
    ensures c0 <= c1 && r1 <= r0
  {
    var far, near := DateDifference(service, early), DateDifference(service, late);
    DifferenceIsAdditive(early, late, service);
    DifferenceOrdersDates(early, late);
    var i := CoveringIndex(rules, near);
    var j := CoveringIndex(rules, far);
    AdjacentTestIsDisjointness(rules);
    if j < i {
      FollowsAll(rules, j, i);
    }
    DistanceLowersCharge(rules, amount, i, j);
    SplitIsExact(amount, rules[i]);
    SplitIsExact(amount, rules[j]);
  }

  ghost predicate NeverDearerFurtherOut(rules: seq<Rule>, amount: int) {
    forall near, far, i, j ::
      (0 <= i < |rules| && 0 <= j < |rules| && near <= far && Covers(rules[i], near) && Covers(rules[j], far))
      ==> Charge(amount, rules[j]) <= Charge(amount, rules[i])
  }

  /** The condition on the bands is exact: over all covered distances the charge never rises with distance
      if and only if no band is dearer than the one before it. */
  lemma DistanceConditionIsExact(rules: seq<Rule>, amount: nat)
    requires Accepted(rules)
    ensures NoDearerWithDistance(rules, amount) <==> NeverDearerFurtherOut(rules, amount)
  {
    if NoDearerWithDistance(rules, amount) {
      forall near: int, far: int, i: nat, j: nat |
        i < |rules| && j < |rules| && near <= far && Covers(rules[i], near) && Covers(rules[j], far)
        ensures Charge(amount, rules[j]) <= Charge(amount, rules[i])
      {
        if j < i {
          FollowsAll(rules, j, i);
        }
        DistanceLowersCharge(rules, amount, i, j);
      }
    } else {
      var i, j :| 0 <= i < j < |rules| && j == i + 1 && Charge(amount, rules[j]) > Charge(amount, rules[i]);
      var near, far := rules[i].minDays, rules[j].minDays;
      FollowsAll(rules, i, j);
      assert RuleValid(rules[i]) && RuleValid(rules[j]);
      assert Covers(rules[i], near) && Covers(rules[j], far);
    }
  }
}
