/** Swapping the public codes of two products, in place, under a uniqueness constraint checked at every single update. */
module IdentifierRepair {
  import opened Wrappers

  type Id = string

  datatype Identifier = Identifier(kind: string, entity: Id, code: string)

  type Table = map<Id, Identifier>

  const KINDS := ["PRODUCT", "VARIANT", "RATE_PLAN"]

  /** The code the wanted product is to have, and the one it has. */
  const REQUESTED := "TA-KL-0017"
  const CURRENT := "TA-KL-0016"

  predicate Distinct(t: Table) {
    forall x, y :: x in t && y in t && t[x].code == t[y].code ==> x == y
  }

  /** What the script looked up before it changes anything: the two product rows, the entities of either product, the rows to
      change in the order the query returned them, and one random text for each. */
  datatype Plan = Plan(targetRow: Option<Id>, ownerRow: Option<Id>, target: Id, targetIds: set<Id>, ownerIds: set<Id>,
                       ids: seq<Id>, randoms: seq<string>)

  predicate Chosen(t: Table, p: Plan, id: Id)
    requires id in t
  {
    t[id].kind in KINDS && (t[id].entity in p.targetIds || t[id].entity in p.ownerIds)
  }

  ghost predicate PlanFits(t: Table, p: Plan) {
    && (p.targetRow.Some? ==> p.targetRow.value in t && t[p.targetRow.value].kind == "PRODUCT" && t[p.targetRow.value].entity == p.target)
    && (p.ownerRow.Some? ==> p.ownerRow.value in t)
    && p.target in p.targetIds
    && (forall id :: id in p.ids <==> id in t && Chosen(t, p, id))
    && (forall i, j :: 0 <= i < j < |p.ids| ==> p.ids[i] != p.ids[j])
    && |p.randoms| == |p.ids|
  }

  function Temporary(random: string): string {
    "TMP-" + random
  }

  /** The random texts are new: different from each other and from every code in the table. */
  ghost predicate FreshRandoms(t: Table, p: Plan) {
    && (forall i, j :: 0 <= i < j < |p.randoms| ==> p.randoms[i] != p.randoms[j])
    && (forall i, id :: 0 <= i < |p.randoms| && id in t ==> t[id].code != Temporary(p.randoms[i]))
  }

  // ---------- new codes ----------

  function FromPrefix(row: Identifier, p: Plan): string {
    if row.entity in p.targetIds then CURRENT else REQUESTED
  }

  function ToPrefix(row: Identifier, p: Plan): string {
    if row.entity in p.targetIds then REQUESTED else CURRENT
  }

  predicate StartsWith(s: string, prefix: string) {
    |prefix| <= |s| && s[..|prefix|] == prefix
  }

  /** String.prototype.replace with a text pattern: only the first occurrence. */
  function ReplaceFirst(s: string, from: string, to: string): string {
    if StartsWith(s, from) then to + s[|from|..]
    else if s == "" then ""
    else [s[0]] + ReplaceFirst(s[1..], from, to)
  }

  /** The product's own code, or that code followed by a dash and a suffix. */
  predicate Expected(row: Identifier, p: Plan) {
    row.code == FromPrefix(row, p) || StartsWith(row.code, FromPrefix(row, p) + "-")
  }

  function NextCode(row: Identifier, p: Plan): string {
    ReplaceFirst(row.code, FromPrefix(row, p), ToPrefix(row, p))
  }

  lemma ExpectedStarts(row: Identifier, p: Plan)
    requires Expected(row, p)
    ensures StartsWith(row.code, FromPrefix(row, p)) && |FromPrefix(row, p)| == 10 == |ToPrefix(row, p)|
    ensures NextCode(row, p) == ToPrefix(row, p) + row.code[10..]
  {
    var from := FromPrefix(row, p);
    if row.code != from {
      assert row.code[..10] == row.code[..11][..10] == (from + "-")[..10] == from;
    }
  }

  /** Only the prefix changes, to the other product's, and the suffix is kept. */
  lemma SuffixKept(row: Identifier, p: Plan)
    requires Expected(row, p)
    ensures row.code == FromPrefix(row, p) + row.code[10..] && NextCode(row, p)[10..] == row.code[10..]
    ensures NextCode(row, p)[..10] == ToPrefix(row, p) && ToPrefix(row, p) != FromPrefix(row, p)
  {
    ExpectedStarts(row, p);
    assert CURRENT[9] != REQUESTED[9];
  }

  lemma NextCodesDiffer(a: Identifier, b: Identifier, p: Plan)
    requires Expected(a, p) && Expected(b, p) && NextCode(a, p) == NextCode(b, p)
    ensures a.code == b.code
  {
    SuffixKept(a, p);
    SuffixKept(b, p);
    assert CURRENT[9] != REQUESTED[9];
    assert ToPrefix(a, p)[9] == ToPrefix(b, p)[9];
    hide NextCode, Expected;
  }

  lemma NextCodeIsNoTemporary(row: Identifier, p: Plan, random: string)
    requires Expected(row, p)
    ensures NextCode(row, p) != Temporary(random)
  {
    ExpectedStarts(row, p);
    assert NextCode(row, p)[1] == 'A' && Temporary(random)[1] == 'M';
  }

  // ---------- the outcome ----------

  ghost predicate AllExpected(t: Table, p: Plan) {
    forall id :: id in p.ids && id in t ==> Expected(t[id], p)
  }

  /** No row outside the two products owns the code this row is about to take. */
  ghost predicate NotOwnedOutside(t: Table, p: Plan, id: Id)
    requires id in t
  {
    forall x :: x in t && x !in p.ids ==> t[x].code != NextCode(t[id], p)
  }

  ghost predicate NoOutsideOwner(t: Table, p: Plan) {
    forall i :: 0 <= i < |p.ids| && p.ids[i] in t ==> NotOwnedOutside(t, p, p.ids[i])
  }

  /** The two products' codes swapped, every other row as it was. */
  function Swapped(t: Table, p: Plan): Table {
    map id | id in t :: if id in p.ids then t[id].(code := NextCode(t[id], p)) else t[id]
  }

  ghost function RepairOf(t: Table, p: Plan): Tx<Table>
    requires PlanFits(t, p)
  {
    if p.targetRow.None? || p.ownerRow.None? then Abort(NotFound)
    else if t[p.targetRow.value].code == REQUESTED then Commit(t)
    else if t[p.targetRow.value].code != CURRENT || t[p.ownerRow.value].code != REQUESTED then Abort(UnexpectedOwnership)
    else if !AllExpected(t, p) then Abort(UnexpectedOwnership)
    else if !NoOutsideOwner(t, p) then Abort(UniqueViolation)
    else Commit(Swapped(t, p))
  }

  // ---------- one update at a time ----------

  function TemporaryAt(t: Table, p: Plan, n: nat): Table
    requires n <= |p.ids| == |p.randoms| && forall id :: id in p.ids ==> id in t
    ensures TemporaryAt(t, p, n).Keys == t.Keys
  {
    if n == 0 then t
    else
      var before := TemporaryAt(t, p, n - 1);
      before[p.ids[n - 1] := t[p.ids[n - 1]].(code := Temporary(p.randoms[n - 1]))]
  }

  function FinalAt(t: Table, p: Plan, n: nat): Table
    requires n <= |p.ids| == |p.randoms| && forall id :: id in p.ids ==> id in t
    ensures FinalAt(t, p, n).Keys == t.Keys
  {
    if n == 0 then TemporaryAt(t, p, |p.ids|)
    else
      var before := FinalAt(t, p, n - 1);
      before[p.ids[n - 1] := t[p.ids[n - 1]].(code := NextCode(t[p.ids[n - 1]], p))]
  }

  /** The table after each of the updates of both loops. */
  function AfterUpdates(t: Table, p: Plan, n: nat): Table
    requires n <= 2 * |p.ids| && |p.ids| == |p.randoms| && forall id :: id in p.ids ==> id in t
  {
    if n <= |p.ids| then TemporaryAt(t, p, n) else FinalAt(t, p, n - |p.ids|)
  }

  lemma {:induction false} TemporaryRows(t: Table, p: Plan, n: nat, id: Id)
    requires n <= |p.ids| == |p.randoms| && (forall x :: x in p.ids ==> x in t) && id in t
    requires forall i, j :: 0 <= i < j < |p.ids| ==> p.ids[i] != p.ids[j]
    ensures var row := TemporaryAt(t, p, n)[id];
            row == t[id] || exists i :: 0 <= i < n && p.ids[i] == id && row == t[id].(code := Temporary(p.randoms[i]))
    ensures (forall i :: 0 <= i < n ==> p.ids[i] != id) ==> TemporaryAt(t, p, n)[id] == t[id]
    ensures forall i :: 0 <= i < n && p.ids[i] == id ==> TemporaryAt(t, p, n)[id] == t[id].(code := Temporary(p.randoms[i]))
    decreases n
  {
    hide Temporary;
    if n > 0 { TemporaryRows(t, p, n - 1, id); }
  }

  lemma {:induction false} FinalRows(t: Table, p: Plan, n: nat, id: Id)
    requires n <= |p.ids| == |p.randoms| && (forall x :: x in p.ids ==> x in t) && id in t
    requires forall i, j :: 0 <= i < j < |p.ids| ==> p.ids[i] != p.ids[j]
    ensures (forall i :: 0 <= i < n ==> p.ids[i] != id) ==> FinalAt(t, p, n)[id] == TemporaryAt(t, p, |p.ids|)[id]
    ensures forall i :: 0 <= i < n && p.ids[i] == id ==> FinalAt(t, p, n)[id] == t[id].(code := NextCode(t[id], p))
    decreases n
  {
    hide NextCode;
    if n > 0 { FinalRows(t, p, n - 1, id); }
  }

  /** Updates touch nothing of a row but its code. */
  lemma FinalRowShape(t: Table, p: Plan, n: nat, id: Id)
    requires PlanFits(t, p) && n <= |p.ids| && id in t
    ensures id in FinalAt(t, p, n) && FinalAt(t, p, n)[id] == t[id].(code := FinalAt(t, p, n)[id].code)
  {
    hide NextCode, Temporary;
    FinalRows(t, p, n, id);
    TemporaryRows(t, p, |p.ids|, id);
  }

  lemma NoFinals(t: Table, p: Plan)
    requires PlanFits(t, p)
    ensures FinalAt(t, p, 0) == TemporaryAt(t, p, |p.ids|)
  {
  }

  lemma FinalSteps(t: Table, p: Plan, n: nat)
    requires PlanFits(t, p) && n < |p.ids|
    ensures var before, id := FinalAt(t, p, n), p.ids[n];
            id in before && FinalAt(t, p, n + 1) == before[id := before[id].(code := NextCode(t[id], p))]
  {
    hide NextCode, Temporary;
    FinalRowShape(t, p, n, p.ids[n]);
  }

  predicate Unused(t: Table, id: Id, code: string) {
    forall x :: x in t && x != id ==> t[x].code != code
  }

  lemma UpdateKeepsDistinct(t: Table, id: Id, row: Identifier)
    requires Distinct(t) && id in t && Unused(t, id, row.code)
    ensures Distinct(t[id := row])
  {
  }

  /** The temporary code of the next update is used by no row. */
  lemma TemporaryUnused(t: Table, p: Plan, n: nat)
    requires PlanFits(t, p) && FreshRandoms(t, p) && n < |p.ids|
    ensures Unused(TemporaryAt(t, p, n), p.ids[n], Temporary(p.randoms[n]))
  {
    var s := TemporaryAt(t, p, n);
    forall x | x in s && x != p.ids[n]
      ensures s[x].code != Temporary(p.randoms[n])
    {
      TemporaryRows(t, p, n, x);
      forall i | 0 <= i < n
        ensures Temporary(p.randoms[i]) != Temporary(p.randoms[n])
      {
        assert Temporary(p.randoms[i])[4..] == p.randoms[i] && Temporary(p.randoms[n])[4..] == p.randoms[n];
      }
    }
  }

  /** The final code of the next update is used by no row, exactly when no outside row owns it. */
  lemma FinalUnused(t: Table, p: Plan, n: nat)
    requires PlanFits(t, p) && Distinct(t) && AllExpected(t, p) && n < |p.ids|
    ensures Unused(FinalAt(t, p, n), p.ids[n], NextCode(t[p.ids[n]], p))
            <==> NotOwnedOutside(t, p, p.ids[n])
  {
    hide NextCode, Expected, Temporary;
    var s := FinalAt(t, p, n);
    var code := NextCode(t[p.ids[n]], p);
    forall x | x in s && x in p.ids && x != p.ids[n]
      ensures s[x].code != code
    {
      ListedUnused(t, p, n, x);
    }
    forall x | x in s && x !in p.ids
      ensures s[x] == t[x]
    {
      FinalRows(t, p, n, x);
      TemporaryRows(t, p, |p.ids|, x);
    }
  }

  lemma ListedUnused(t: Table, p: Plan, n: nat, x: Id)
    requires PlanFits(t, p) && Distinct(t) && AllExpected(t, p) && n < |p.ids| && x in p.ids && x != p.ids[n]
    ensures FinalAt(t, p, n)[x].code != NextCode(t[p.ids[n]], p)
  {
    hide NextCode, Expected, Temporary;
    var i :| 0 <= i < |p.ids| && p.ids[i] == x;
    FinalRows(t, p, n, x);
    if i < n {
      if NextCode(t[x], p) == NextCode(t[p.ids[n]], p) {
        NextCodesDiffer(t[x], t[p.ids[n]], p);
      }
    } else {
      TemporaryRows(t, p, |p.ids|, x);
      NextCodeIsNoTemporary(t[p.ids[n]], p, p.randoms[i]);
    }
  }

  lemma {:induction false} TemporariesDistinct(t: Table, p: Plan, n: nat)
    requires PlanFits(t, p) && FreshRandoms(t, p) && Distinct(t) && n <= |p.ids|
    ensures Distinct(TemporaryAt(t, p, n))
    decreases n
  {
    hide Distinct, Unused, Temporary, FreshRandoms;
    if n > 0 {
      TemporariesDistinct(t, p, n - 1);
      TemporaryUnused(t, p, n - 1);
      UpdateKeepsDistinct(TemporaryAt(t, p, n - 1), p.ids[n - 1], t[p.ids[n - 1]].(code := Temporary(p.randoms[n - 1])));
    }
  }

  lemma {:induction false} FinalsDistinct(t: Table, p: Plan, n: nat)
    requires PlanFits(t, p) && FreshRandoms(t, p) && Distinct(t) && AllExpected(t, p) && NoOutsideOwner(t, p) && n <= |p.ids|
    ensures Distinct(FinalAt(t, p, n))
    decreases n
  {
    hide Distinct, Unused, NextCode, FreshRandoms, AllExpected, NotOwnedOutside;
    if n == 0 {
      TemporariesDistinct(t, p, |p.ids|);
    } else {
      FinalsDistinct(t, p, n - 1);
      FinalUnused(t, p, n - 1);
      UpdateKeepsDistinct(FinalAt(t, p, n - 1), p.ids[n - 1], t[p.ids[n - 1]].(code := NextCode(t[p.ids[n - 1]], p)));
    }
  }

  /** All codes are pairwise distinct after every single update of both loops. */
  lemma DistinctThroughout(t: Table, p: Plan, n: nat)
    requires PlanFits(t, p) && FreshRandoms(t, p) && Distinct(t) && AllExpected(t, p) && NoOutsideOwner(t, p) && n <= 2 * |p.ids|
    ensures Distinct(AfterUpdates(t, p, n))
  {
    hide Distinct, FreshRandoms, AllExpected, NoOutsideOwner;
    if n <= |p.ids| { TemporariesDistinct(t, p, n); } else { FinalsDistinct(t, p, n - |p.ids|); }
  }

  /** Products, variants and rate plans of the two products, and no other row. */
  predicate OfTheTwo(row: Identifier, p: Plan) {
    (row.kind == "PRODUCT" || row.kind == "VARIANT" || row.kind == "RATE_PLAN") && (row.entity in p.targetIds || row.entity in p.ownerIds)
  }

  /** The last update leaves the two products' codes swapped, with those of their variants and rate plans, and every other row as it was. */
  lemma LastUpdateSwaps(t: Table, p: Plan)
    requires PlanFits(t, p)
    ensures FinalAt(t, p, |p.ids|) == Swapped(t, p)
    ensures forall id :: id in t ==>
              id in Swapped(t, p) && Swapped(t, p)[id] == if OfTheTwo(t[id], p) then t[id].(code := NextCode(t[id], p)) else t[id]
  {
    hide NextCode, Temporary;
    forall id | id in t
      ensures OfTheTwo(t[id], p) <==> id in p.ids
    {
      assert Chosen(t, p, id) <==> OfTheTwo(t[id], p);
    }
    forall id | id in t
      ensures FinalAt(t, p, |p.ids|)[id] == Swapped(t, p)[id]
    {
      FinalRows(t, p, |p.ids|, id);
      TemporaryRows(t, p, |p.ids|, id);
    }
  }

  /** Running the script again, with any plan for the same product, changes nothing. */
  lemma SecondRunChangesNothing(t: Table, p: Plan, q: Plan)
    requires PlanFits(t, p) && RepairOf(t, p).Commit?
    requires q.targetRow == p.targetRow && q.ownerRow.Some? && PlanFits(RepairOf(t, p).value, q)
    ensures RepairOf(RepairOf(t, p).value, q) == RepairOf(t, p)
  {
    hide NoOutsideOwner, NextCode, Expected;
    var id := p.targetRow.value;
    if t[id].code != REQUESTED {
      assert id in p.ids;
      TargetTakesRequested(t[id], p);
    }
  }

  lemma TargetTakesRequested(row: Identifier, p: Plan)
    requires row.code == CURRENT && row.entity in p.targetIds
    ensures NextCode(row, p) == REQUESTED
  {
    ExpectedStarts(row, p);
    assert row.code[10..] == "";
  }

  lemma OwnerTakesCurrent(row: Identifier, p: Plan)
    requires row.code == REQUESTED && row.entity !in p.targetIds
    ensures NextCode(row, p) == CURRENT
  {
    ExpectedStarts(row, p);
    assert row.code[10..] == "";
  }

  /** Which product ends with which code: a repair that goes through leaves the wanted product with TA-KL-0017, and takes that code from
      its owner, who gets TA-KL-0016; from any other pair of codes nothing is changed. */
  lemma CodesEndUpRight(t: Table, p: Plan)
    requires PlanFits(t, p) && p.targetRow.Some? && p.ownerRow.Some?
    requires var owner := t[p.ownerRow.value]; owner.kind == "PRODUCT" && owner.entity in p.ownerIds && owner.entity !in p.targetIds
    ensures var target, owner := p.targetRow.value, p.ownerRow.value;
            if t[target].code == "TA-KL-0017" then RepairOf(t, p) == Commit(t)
            else if t[target].code == "TA-KL-0016" && t[owner].code == "TA-KL-0017" then
              RepairOf(t, p).Commit? ==>
                && target in RepairOf(t, p).value && RepairOf(t, p).value[target].code == "TA-KL-0017"
                && owner in RepairOf(t, p).value && RepairOf(t, p).value[owner].code == "TA-KL-0016"
            else RepairOf(t, p) == Abort(UnexpectedOwnership)
  {
    hide NoOutsideOwner, NextCode, Expected;
    var target, owner := t[p.targetRow.value], t[p.ownerRow.value];
    assert Chosen(t, p, p.targetRow.value) && Chosen(t, p, p.ownerRow.value);
    if target.code == CURRENT { TargetTakesRequested(target, p); }
    if owner.code == REQUESTED { OwnerTakesCurrent(owner, p); }
  }

  // ---------- the script ----------

  class Registry {
    var rows: Table

    constructor (t: Table)
      ensures rows == t
    {
      rows := t;
    }

    /** One update, refused by the unique index when another row has the code. */
    method Update(id: Id, code: string) returns (ok: bool)
      requires id in rows && Distinct(rows)
      modifies this
      ensures ok <==> Unused(old(rows), id, code)
      ensures rows == if ok then old(rows)[id := old(rows)[id].(code := code)] else old(rows)
      ensures Distinct(rows)
    {
      if exists x :: x in rows && x != id && rows[x].code == code { return false; }
      rows := rows[id := rows[id].(code := code)];
      return true;
    }

    /** The first loop: every changing row gets a temporary code. */
    method WriteTemporaries(p: Plan)
      requires PlanFits(rows, p) && FreshRandoms(rows, p) && Distinct(rows)
      modifies this
      ensures rows == TemporaryAt(old(rows), p, |p.ids|) && Distinct(rows)
    {
      hide Temporary, FreshRandoms, Distinct, Unused;
      ghost var t := rows;
      for i := 0 to |p.ids|
        invariant rows == TemporaryAt(t, p, i) && Distinct(rows)
      {
        TemporaryUnused(t, p, i);
        TemporaryRows(t, p, i, p.ids[i]);
        var ok := Update(p.ids[i], Temporary(p.randoms[i]));
      }
    }

    /** The second loop: every changing row gets its final code, until one is taken. */
    method WriteFinals(p: Plan, next: map<Id, string>, ghost t: Table) returns (failed: Option<Error>)
      requires PlanFits(t, p) && Distinct(t) && AllExpected(t, p) && rows == TemporaryAt(t, p, |p.ids|) && Distinct(rows)
      requires forall id :: id in p.ids ==> id in next && next[id] == NextCode(t[id], p)
      modifies this
      ensures failed.None? <==> NoOutsideOwner(t, p)
      ensures failed.None? ==> rows == FinalAt(t, p, |p.ids|)
      ensures failed.Some? ==> failed.value == UniqueViolation
    {
      hide NextCode, Temporary, Distinct, Unused, AllExpected, NotOwnedOutside, TemporaryAt, FinalAt;
      NoFinals(t, p);
      for i := 0 to |p.ids|
        invariant rows == FinalAt(t, p, i) && Distinct(rows)
        invariant forall j :: 0 <= j < i ==> NotOwnedOutside(t, p, p.ids[j])
      {
        FinalUnused(t, p, i);
        FinalSteps(t, p, i);
        var ok := Update(p.ids[i], next[p.ids[i]]);
        if !ok { return Some(UniqueViolation); }
      }
      return None;
    }

    /** Both loops. The new codes are worked out before the first of them. */
    method Swap(p: Plan) returns (failed: Option<Error>)
      requires PlanFits(rows, p) && FreshRandoms(rows, p) && Distinct(rows) && AllExpected(rows, p)
      modifies this
      ensures failed.None? <==> NoOutsideOwner(old(rows), p)
      ensures failed.None? ==> rows == Swapped(old(rows), p)
      ensures failed.Some? ==> failed.value == UniqueViolation
    {
      hide NextCode, Temporary, FreshRandoms, AllExpected, Distinct, NoOutsideOwner, Swapped;
      ghost var t := rows;
      var next := map id | id in rows && id in p.ids :: NextCode(rows[id], p);
      WriteTemporaries(p);
      failed := WriteFinals(p, next, t);
      LastUpdateSwaps(t, p);
    }

    method Repair(p: Plan) returns (failed: Option<Error>)
      requires PlanFits(rows, p) && FreshRandoms(rows, p) && Distinct(rows)
      modifies this
      ensures failed.Some? ==> RepairOf(old(rows), p) == Abort(failed.value) && rows == old(rows)
      ensures failed.None? ==> RepairOf(old(rows), p) == Commit(rows)
    {
      hide NextCode, Temporary, Expected, FreshRandoms, Distinct;
      if p.targetRow.None? || p.ownerRow.None? { return Some(NotFound); }
      if rows[p.targetRow.value].code == REQUESTED { return None; }
      if rows[p.targetRow.value].code != CURRENT || rows[p.ownerRow.value].code != REQUESTED { return Some(UnexpectedOwnership); }
      for i := 0 to |p.ids|
        invariant forall j :: 0 <= j < i ==> Expected(rows[p.ids[j]], p)
      {
        if !Expected(rows[p.ids[i]], p) { return Some(UnexpectedOwnership); }
      }
      assert AllExpected(rows, p);
      var before := rows;
      failed := Swap(p);
      if failed.Some? {
        rows := before;
      }
    }
  }
}
