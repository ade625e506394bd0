/** Day-range cancellation policies: what the loader accepts and what the matcher later finds. */
module Policy {
  import opened Wrappers
  import opened Text

  datatype ChargeType = Percentage | Absolute

  /** A stored row, before its charge type is recognized. */
  datatype Row = Row(minDays: int, maxDays: Option<int>, chargeType: Option<ChargeType>, chargeValue: DecimalText)

  /** A band of days before service, inclusive at both ends; no maximum means open-ended. */
  datatype Rule = Rule(minDays: int, maxDays: Option<int>, chargeType: ChargeType, chargeValue: DecimalText)

  datatype VersionSnapshot = VersionSnapshot(ratePlan: string, rows: Option<seq<Row>>)

  predicate Covers(r: Rule, days: int) {
    r.minDays <= days && (r.maxDays.None? || days <= r.maxDays.value)
  }

  predicate RuleValid(r: Rule) {
    && 0 <= r.minDays
    && (r.maxDays.None? || r.minDays <= r.maxDays.value)
    && DecimalValue(r.chargeValue) >= 0.0
  }

  predicate AllValid(rules: seq<Rule>) {
    forall i :: 0 <= i < |rules| ==> RuleValid(rules[i])
  }

  function ToRule(row: Row): Rule
    requires row.chargeType.Some?
  {
    Rule(row.minDays, row.maxDays, row.chargeType.value, row.chargeValue)
  }

  predicate RowValid(row: Row) {
    row.chargeType.Some? && RuleValid(ToRule(row))
  }

  predicate RowsValid(rows: seq<Row>) {
    forall i :: 0 <= i < |rows| ==> RowValid(rows[i])
  }

  function ToRules(rows: seq<Row>): (rules: seq<Rule>)
    requires RowsValid(rows)
    ensures |rules| == |rows|
    ensures forall i :: 0 <= i < |rows| ==> rules[i] == ToRule(rows[i])
  {
    if rows == [] then [] else [ToRule(rows[0])] + ToRules(rows[1..])
  }

  /** The loader's test of one adjacent pair. */
  predicate Follows(previous: Rule, current: Rule) {
    previous.maxDays.Some? && previous.maxDays.value < current.minDays
  }

  ghost predicate AdjacentFollow(rules: seq<Rule>) {
    forall i, j :: 0 <= i < j < |rules| && j == i + 1 ==> Follows(rules[i], rules[j])
  }

  predicate RowFollows(previous: Row, current: Row) {
    previous.maxDays.Some? && previous.maxDays.value < current.minDays
  }

  ghost predicate RowsFollow(rows: seq<Row>) {
    forall i, j :: 0 <= i < j < |rows| && j == i + 1 ==> RowFollows(rows[i], rows[j])
  }

  ghost predicate Accepted(rules: seq<Rule>) {
    rules != [] && AllValid(rules) && AdjacentFollow(rules)
  }

  /** The loader's verdict on the chosen rows, said at once. */
  ghost function LoadOf(rows: seq<Row>): Tx<seq<Rule>> {
    if rows == [] then Abort(PolicyMissing)
    else if !RowsValid(rows) then Abort(PolicyInvalid)
    else if !RowsFollow(rows) then Abort(PolicyAmbiguous)
    else Commit(ToRules(rows))
  }

  method CheckRows(rows: seq<Row>) returns (valid: bool)
    ensures valid <==> RowsValid(rows)
  {
    hide DecimalValue;
    for i := 0 to |rows|
      invariant forall j :: 0 <= j < i ==> RowValid(rows[j])
    {
      var row := rows[i];
      if row.minDays < 0 || (row.maxDays.Some? && row.maxDays.value < row.minDays)
         || DecimalValue(row.chargeValue) < 0.0 || row.chargeType.None? {
        assert !RowValid(rows[i]);
        return false;
      }
    }
    return true;
  }

  method CheckPairs(rows: seq<Row>) returns (follow: bool)
    requires rows != []
    ensures follow <==> RowsFollow(rows)
  {
    for index := 1 to |rows|
      invariant forall i, j :: 0 <= i < j < index && j == i + 1 ==> RowFollows(rows[i], rows[j])
    {
      var previous, current := rows[index - 1], rows[index];
      if previous.maxDays.None? || current.minDays <= previous.maxDays.value {
        assert !RowFollows(previous, current);
        return false;
      }
      assert RowFollows(previous, current);
    }
    return true;
  }

  /** Reads the rows that decide and validates every one of them, then every adjacent pair. A version of this plan with a snapshot that is
      not empty decides alone, whatever the plan's own rows are; anything else leaves the answer to those alone. */
  method Load(ratePlan: string, version: Option<VersionSnapshot>, planRows: seq<Row>) returns (result: Tx<seq<Rule>>)
    ensures version.Some? && version.value.ratePlan == ratePlan && version.value.rows.Some? && version.value.rows.value != [] ==>
              result == LoadOf(version.value.rows.value)
    ensures version.None? || version.value.ratePlan != ratePlan || version.value.rows.GetOr([]) == [] ==> result == LoadOf(planRows)
  {
    var rows: seq<Row> := [];
    if version.Some? {
      if version.value.ratePlan == ratePlan && version.value.rows.Some? && version.value.rows.value != [] {
        rows := version.value.rows.value;
      }
    }
    if rows == [] {
      rows := planRows;
    }
    if rows == [] {
      return Abort(PolicyMissing);
    }
    var valid := CheckRows(rows);
    if !valid {
      return Abort(PolicyInvalid);
    }
    var follow := CheckPairs(rows);
    if !follow {
      return Abort(PolicyAmbiguous);
    }
    return Commit(ToRules(rows));
  }

  /** What the loader lets through is exactly the policies whose rules are all valid and follow one another. */
  lemma LoadAccepts(rows: seq<Row>)
    ensures LoadOf(rows).Commit? <==> RowsValid(rows) && Accepted(ToRules(rows))
    ensures LoadOf(rows).Commit? ==> LoadOf(rows).value == ToRules(rows)
  {
    if RowsValid(rows) {
      var rules := ToRules(rows);
      assert AllValid(rules) by {
        forall i | 0 <= i < |rules|
          ensures RuleValid(rules[i])
        {
          assert RowValid(rows[i]);
        }
      }
      forall i, j | 0 <= i < j < |rows| && j == i + 1
        ensures RowFollows(rows[i], rows[j]) <==> Follows(rules[i], rules[j])
      {
      }
    }
  }

  /** The answer of each case, told by the rows: missing when there are none, invalid when one of them is, ambiguous when all are valid
      but two neighbours do not follow one another, and otherwise the rows themselves, one rule each. */
  lemma LoadTold(rows: seq<Row>)
    ensures LoadOf(rows) == Abort(PolicyMissing) <==> rows == []
    ensures LoadOf(rows) == Abort(PolicyInvalid) <==> exists i :: 0 <= i < |rows| && Broken(rows[i])
    ensures LoadOf(rows) == Abort(PolicyAmbiguous) <==>
              && rows != [] && (forall i :: 0 <= i < |rows| ==> !Broken(rows[i]))
              && exists i :: 0 < i < |rows| && Collide(rows[i - 1], rows[i])
    ensures LoadOf(rows).Commit? ==>
              && |LoadOf(rows).value| == |rows|
              && forall i :: 0 <= i < |rows| ==> Carries(LoadOf(rows).value[i], rows[i])
    ensures LoadOf(rows).Abort? ==> LoadOf(rows).error in [PolicyMissing, PolicyInvalid, PolicyAmbiguous]
  {
    hide DecimalValue;
    forall i | 0 <= i < |rows|
      ensures Broken(rows[i]) <==> !RowValid(rows[i])
    {
    }
    forall i, j | 0 <= i < j < |rows| && j == i + 1
      ensures Collide(rows[j - 1], rows[j]) <==> !RowFollows(rows[i], rows[j])
    {
    }
  }

  /** A row no policy may contain. */
  predicate Broken(row: Row) {
    || row.minDays < 0 || (row.maxDays.Some? && row.maxDays.value < row.minDays)
    || DecimalValue(row.chargeValue) < 0.0 || row.chargeType.None?
  }

  /** An earlier row that leaves no room for a later one: it is open-ended, or reaches the later one's first day. */
  predicate Collide(earlier: Row, later: Row) {
    earlier.maxDays.None? || later.minDays <= earlier.maxDays.value
  }

  predicate Carries(rule: Rule, row: Row) {
    && rule.minDays == row.minDays && rule.maxDays == row.maxDays && Some(rule.chargeType) == row.chargeType
    && rule.chargeValue == row.chargeValue
  }

  // ---------- what acceptance means, in days ----------

  ghost predicate DisjointDays(rows: seq<Rule>) {
    forall i, j, days :: 0 <= i < j < |rows| ==> !(Covers(rows[i], days) && Covers(rows[j], days))
  }

  ghost predicate SortedByMinimum(rows: seq<Rule>) {
    forall i, j :: 0 <= i < j < |rows| ==> rows[i].minDays <= rows[j].minDays
  }

  ghost predicate OnlyLastOpen(rows: seq<Rule>) {
    forall i :: 0 <= i < |rows| && rows[i].maxDays.None? ==> i == |rows| - 1
  }

  lemma {:induction false} FollowsAll(rows: seq<Rule>, i: nat, j: nat)
    requires AllValid(rows) && AdjacentFollow(rows) && i < j < |rows|
    ensures Follows(rows[i], rows[j])
    decreases j - i
  {
    var k := j - 1;
    assert Follows(rows[k], rows[j]);
    if i < k {
      FollowsAll(rows, i, k);
      assert RuleValid(rows[k]);
    }
  }

  /** In whatever order the rows come, the adjacent-pair test accepts exactly the rows that are sorted by minimum
      day and whose day ranges share no day; an open-ended range can then only be the last. */
  lemma AdjacentTestIsDisjointness(rows: seq<Rule>)
    requires AllValid(rows)
    ensures AdjacentFollow(rows) <==> SortedByMinimum(rows) && DisjointDays(rows)
    ensures AdjacentFollow(rows) ==> OnlyLastOpen(rows)
  {
    if AdjacentFollow(rows) {
      forall i: nat, j: nat | i < j < |rows|
        ensures Follows(rows[i], rows[j]) && rows[i].minDays <= rows[j].minDays
      {
        FollowsAll(rows, i, j);
        assert RuleValid(rows[i]);
      }
      forall i | 0 <= i < |rows| - 1
        ensures rows[i].maxDays.Some?
      {
        assert Follows(rows[i], rows[|rows| - 1]);
      }
    } else {
      var i, j :| 0 <= i < j < |rows| && j == i + 1 && !Follows(rows[i], rows[j]);
      assert RuleValid(rows[i]) && RuleValid(rows[j]);
      if SortedByMinimum(rows) {
        assert Covers(rows[i], rows[j].minDays) && Covers(rows[j], rows[j].minDays);
      }
    }
  }

  // ---------- the matcher ----------

  function Matches(rules: seq<Rule>, days: int): (found: seq<Rule>)
    ensures forall r :: r in found ==> r in rules && Covers(r, days)
    ensures forall i :: 0 <= i < |rules| && Covers(rules[i], days) ==> rules[i] in found
  {
    if rules == [] then []
    else (if Covers(rules[0], days) then [rules[0]] else []) + Matches(rules[1..], days)
  }

  lemma {:induction false} MatchesNone(rules: seq<Rule>, days: int)
    requires forall i :: 0 <= i < |rules| ==> !Covers(rules[i], days)
    ensures Matches(rules, days) == []
  {
    if rules != [] {
      assert forall i :: 0 <= i < |rules[1..]| ==> rules[1..][i] == rules[i + 1];
      MatchesNone(rules[1..], days);
    }
  }

  /** On disjoint ranges the matcher finds exactly the covering rule, or nothing; never two. */
  lemma {:induction false} MatchesAtMostOne(rules: seq<Rule>, days: int)
    requires DisjointDays(rules)
    ensures |Matches(rules, days)| <= 1
    ensures forall i :: 0 <= i < |rules| && Covers(rules[i], days) ==> Matches(rules, days) == [rules[i]]
  {
    if rules != [] {
      assert forall i :: 0 <= i < |rules[1..]| ==> rules[1..][i] == rules[i + 1];
      MatchesAtMostOne(rules[1..], days);
      if Covers(rules[0], days) {
        MatchesNone(rules[1..], days);
      }
    }
  }

  lemma AcceptedMatchesAtMostOne(rules: seq<Rule>, days: int)
    requires Accepted(rules)
    ensures |Matches(rules, days)| <= 1
    ensures forall i :: 0 <= i < |rules| && Covers(rules[i], days) ==> Matches(rules, days) == [rules[i]]
  {
    AdjacentTestIsDisjointness(rules);
    MatchesAtMostOne(rules, days);
  }
}
