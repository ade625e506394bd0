/** Canonical JSON: key order does not matter, everything else does. */
module Canonical {

  /** A JSON-able value. A number is kept as the text JavaScript prints for it; object fields keep insertion order. */
  datatype Json =
    | Null
    | Bool(b: bool)
    | Number(text: string)
    | String(s: string)
    | Date(iso: string)
    | Array(items: seq<Json>)
    | Object(fields: seq<Field>)

  datatype Field = Field(key: string, value: Json)

  /** The collation used to sort keys: any total order in which only equal keys compare equal. */
  ghost predicate TotalOrder(le: (string, string) -> bool) {
    && (forall a, b :: le(a, b) || le(b, a))
    && (forall a, b :: le(a, b) && le(b, a) ==> a == b)
    && (forall a, b, c :: le(a, b) && le(b, c) ==> le(a, c))
  }

  function Insert(le: (string, string) -> bool, f: Field, fields: seq<Field>): seq<Field> {
    if fields == [] || le(f.key, fields[0].key) then [f] + fields
    else [fields[0]] + Insert(le, f, fields[1..])
  }

  function SortFields(le: (string, string) -> bool, fields: seq<Field>): seq<Field> {
    if fields == [] then [] else Insert(le, fields[0], SortFields(le, fields[1..]))
  }

  /** Dates become their ISO text; arrays keep their order; an object's entries are sorted by key at every depth.
      The sort looks only at keys, so sorting before or after the values are canonicalized is the same. */
  function Canonicalize(le: (string, string) -> bool, v: Json): Json
    decreases v, 1
  {
    match v
    case Date(iso) => String(iso)
    case Array(items) => Array(CanonicalItems(le, items))
    case Object(fields) => Object(SortFields(le, CanonicalFields(le, fields)))
    case _ => v
  }

  function CanonicalItems(le: (string, string) -> bool, items: seq<Json>): (r: seq<Json>)
    ensures |r| == |items|
    ensures forall i :: 0 <= i < |items| ==> r[i] == Canonicalize(le, items[i])
    decreases items, 0
  {
    if items == [] then [] else [Canonicalize(le, items[0])] + CanonicalItems(le, items[1..])
  }

  function CanonicalFields(le: (string, string) -> bool, fields: seq<Field>): (r: seq<Field>)
    ensures |r| == |fields|
    ensures forall i :: 0 <= i < |fields| ==> r[i] == Field(fields[i].key, Canonicalize(le, fields[i].value))
    decreases fields, 0
  {
    if fields == [] then []
    else [Field(fields[0].key, Canonicalize(le, fields[0].value))] + CanonicalFields(le, fields[1..])
  }

  // ---------- which values are the same, said without sorting ----------

  /** An object has one value per key. */
  ghost predicate DistinctKeys(fields: seq<Field>) {
    forall i, j :: 0 <= i < j < |fields| ==> fields[i].key != fields[j].key
  }

  ghost predicate WellFormed(v: Json) {
    match v
    case Array(items) => forall i :: 0 <= i < |items| ==> WellFormed(items[i])
    case Object(fields) => DistinctKeys(fields) && forall i :: 0 <= i < |fields| ==> WellFormed(fields[i].value)
    case _ => true
  }

  ghost predicate HasKey(fields: seq<Field>, key: string) {
    exists i :: 0 <= i < |fields| && fields[i].key == key
  }

  /** Same value: equal leaves (a date is its text), arrays equal place by place, objects equal key by key. */
  ghost predicate Same(a: Json, b: Json)
    decreases a
  {
    match a
    case Array(items) =>
      b.Array? && |items| == |b.items| && forall i :: 0 <= i < |items| ==> Same(items[i], b.items[i])
    case Object(fields) =>
      && b.Object?
      && (forall i :: 0 <= i < |fields| ==> HasKey(b.fields, fields[i].key))
      && (forall j :: 0 <= j < |b.fields| ==> HasKey(fields, b.fields[j].key))
      && (forall i, j :: 0 <= i < |fields| && 0 <= j < |b.fields| && fields[i].key == b.fields[j].key ==>
                           Same(fields[i].value, b.fields[j].value))
    case Date(iso) => b == Date(iso) || b == String(iso)
    case String(s) => b == Date(s) || b == String(s)
    case _ => a == b
  }

  // ---------- sorting ----------

  ghost predicate Sorted(le: (string, string) -> bool, fields: seq<Field>) {
    forall i, j :: 0 <= i < j < |fields| ==> le(fields[i].key, fields[j].key)
  }

  lemma {:induction false} InsertKeepsFields(le: (string, string) -> bool, f: Field, fields: seq<Field>)
    ensures forall x :: x in Insert(le, f, fields) <==> x == f || x in fields
    ensures DistinctKeys(fields) && (forall x :: x in fields ==> x.key != f.key) ==> DistinctKeys(Insert(le, f, fields))
  {
    if fields != [] && !le(f.key, fields[0].key) {
      var rest := fields[1..];
      var tail := Insert(le, f, rest);
      InsertKeepsFields(le, f, rest);
      assert fields == [fields[0]] + rest;
      if DistinctKeys(fields) && forall x :: x in fields ==> x.key != f.key {
        forall k | 0 <= k < |tail|
          ensures tail[k].key != fields[0].key
        {
          assert tail[k] in tail;
        }
      }
    }
  }

  lemma {:induction false} SortKeepsFields(le: (string, string) -> bool, fields: seq<Field>)
    ensures forall x :: x in SortFields(le, fields) <==> x in fields
    ensures DistinctKeys(fields) ==> DistinctKeys(SortFields(le, fields))
  {
    if fields != [] {
      var rest := fields[1..];
      SortKeepsFields(le, rest);
      InsertKeepsFields(le, fields[0], SortFields(le, rest));
      assert fields == [fields[0]] + rest;
      assert DistinctKeys(fields) ==> forall k :: 0 <= k < |rest| ==> rest[k].key != fields[0].key;
    }
  }

  lemma {:induction false} InsertSorts(le: (string, string) -> bool, f: Field, fields: seq<Field>)
    requires TotalOrder(le) && Sorted(le, fields)
    ensures Sorted(le, Insert(le, f, fields))
  {
    if fields != [] && !le(f.key, fields[0].key) {
      var tail := Insert(le, f, fields[1..]);
      InsertSorts(le, f, fields[1..]);
      InsertKeepsFields(le, f, fields[1..]);
      forall k | 0 <= k < |tail|
        ensures le(fields[0].key, tail[k].key)
      {
        assert tail[k] in tail;
      }
    }
  }

  lemma {:induction false} SortSorts(le: (string, string) -> bool, fields: seq<Field>)
    requires TotalOrder(le)
    ensures Sorted(le, SortFields(le, fields))
  {
    if fields != [] {
      SortSorts(le, fields[1..]);
      InsertSorts(le, fields[0], SortFields(le, fields[1..]));
    }
  }

  lemma TailMembers(f: seq<Field>)
    requires f != [] && DistinctKeys(f)
    ensures forall x :: x in f[1..] <==> x in f && x != f[0]
  {
    assert f == [f[0]] + f[1..];
    forall x | x in f[1..]
      ensures x != f[0]
    {
      var k :| 0 <= k < |f[1..]| && f[1..][k] == x;
      assert f[k + 1].key != f[0].key;
    }
  }

  /** A set of fields with distinct keys has only one sorted listing. */
  lemma {:induction false} SortedIsUnique(le: (string, string) -> bool, f: seq<Field>, g: seq<Field>)
    requires TotalOrder(le) && Sorted(le, f) && Sorted(le, g) && DistinctKeys(f) && DistinctKeys(g)
    requires forall x :: x in f <==> x in g
    ensures f == g
  {
    if f != [] { assert f[0] in g; }
    if g != [] { assert g[0] in f; }
    if f != [] {
      assert f[0] == g[0];
      TailMembers(f);
      TailMembers(g);
      SortedIsUnique(le, f[1..], g[1..]);
    }
  }

  lemma AgreeingFieldsSortEqually(le: (string, string) -> bool, f: seq<Field>, g: seq<Field>)
    requires TotalOrder(le) && DistinctKeys(f) && DistinctKeys(g)
    requires forall i :: 0 <= i < |f| ==> HasKey(g, f[i].key)
    requires forall j :: 0 <= j < |g| ==> HasKey(f, g[j].key)
    requires forall i, j :: 0 <= i < |f| && 0 <= j < |g| && f[i].key == g[j].key ==> f[i] == g[j]
    ensures SortFields(le, f) == SortFields(le, g)
  {
    SortSorts(le, f);
    SortSorts(le, g);
    SortKeepsFields(le, f);
    SortKeepsFields(le, g);
    forall x | x in f
      ensures x in g
    {
      var i :| 0 <= i < |f| && f[i] == x;
      var j :| 0 <= j < |g| && g[j].key == f[i].key;
    }
    forall x | x in g
      ensures x in f
    {
      var j :| 0 <= j < |g| && g[j] == x;
      var i :| 0 <= i < |f| && f[i].key == g[j].key;
    }
    SortedIsUnique(le, SortFields(le, f), SortFields(le, g));
  }

  // ---------- canonicalization identifies exactly the same values ----------

  lemma KeysOfCanonicalFields(le: (string, string) -> bool, fields: seq<Field>)
    ensures DistinctKeys(fields) ==> DistinctKeys(CanonicalFields(le, fields))
    ensures forall key :: HasKey(CanonicalFields(le, fields), key) <==> HasKey(fields, key)
  {
    var f := CanonicalFields(le, fields);
    forall key | HasKey(fields, key)
      ensures HasKey(f, key)
    {
      var i :| 0 <= i < |fields| && fields[i].key == key;
      assert f[i].key == key;
    }
  }

  lemma {:induction false} SameIsCanonicallyEqual(le: (string, string) -> bool, a: Json, b: Json)
    requires TotalOrder(le) && WellFormed(a) && WellFormed(b) && Same(a, b)
    ensures Canonicalize(le, a) == Canonicalize(le, b)
    decreases a
  {
    match a
    case Array(items) =>
      forall i | 0 <= i < |items|
        ensures Canonicalize(le, items[i]) == Canonicalize(le, b.items[i])
      {
        SameIsCanonicallyEqual(le, items[i], b.items[i]);
      }
      assert CanonicalItems(le, items) == CanonicalItems(le, b.items);
    case Object(fields) =>
      forall i, j | 0 <= i < |fields| && 0 <= j < |b.fields| && fields[i].key == b.fields[j].key
        ensures Canonicalize(le, fields[i].value) == Canonicalize(le, b.fields[j].value)
      {
        SameIsCanonicallyEqual(le, fields[i].value, b.fields[j].value);
      }
      var f, g := CanonicalFields(le, fields), CanonicalFields(le, b.fields);
      KeysOfCanonicalFields(le, fields);
      KeysOfCanonicalFields(le, b.fields);
      AgreeingFieldsSortEqually(le, f, g);
    case _ =>
  }

  lemma {:induction false} FieldFound(le: (string, string) -> bool, f: seq<Field>, g: seq<Field>, i: nat) returns (k: nat)
    requires SortFields(le, f) == SortFields(le, g) && i < |f|
    ensures k < |g| && g[k] == f[i]
  {
    SortKeepsFields(le, f);
    SortKeepsFields(le, g);
    assert f[i] in f;
    k :| 0 <= k < |g| && g[k] == f[i];
  }

  /** Objects that sort to the same fields have the same keys, with the same canonical values. */
  lemma {:induction false} FieldsAlike(le: (string, string) -> bool, a: seq<Field>, b: seq<Field>, i: nat)
    requires DistinctKeys(b) && SortFields(le, CanonicalFields(le, a)) == SortFields(le, CanonicalFields(le, b)) && i < |a|
    ensures HasKey(b, a[i].key)
    ensures forall j :: 0 <= j < |b| && a[i].key == b[j].key ==> Canonicalize(le, a[i].value) == Canonicalize(le, b[j].value)
  {
    hide Canonicalize, SortFields;
    var k := FieldFound(le, CanonicalFields(le, a), CanonicalFields(le, b), i);
    assert b[k].key == a[i].key;
  }

  lemma {:induction false} CanonicallyEqualIsSame(le: (string, string) -> bool, a: Json, b: Json)
    requires WellFormed(a) && WellFormed(b)
    requires Canonicalize(le, a) == Canonicalize(le, b)
    ensures Same(a, b)
    decreases a
  {
    match a
    case Array(items) =>
      forall i | 0 <= i < |items|
        ensures Same(items[i], b.items[i])
      {
        assert CanonicalItems(le, items)[i] == CanonicalItems(le, b.items)[i];
        CanonicallyEqualIsSame(le, items[i], b.items[i]);
      }
    case Object(fields) =>
      forall i | 0 <= i < |fields|
        ensures HasKey(b.fields, fields[i].key)
      {
        FieldsAlike(le, fields, b.fields, i);
      }
      forall j | 0 <= j < |b.fields|
        ensures HasKey(fields, b.fields[j].key)
      {
        FieldsAlike(le, b.fields, fields, j);
      }
      forall i, j | 0 <= i < |fields| && 0 <= j < |b.fields| && fields[i].key == b.fields[j].key
        ensures Same(fields[i].value, b.fields[j].value)
      {
        FieldsAlike(le, fields, b.fields, i);
        CanonicallyEqualIsSame(le, fields[i].value, b.fields[j].value);
      }
    case _ =>
  }

  /** Equal canonical forms exactly for the same values: key order is forgotten at every depth, nothing else is. */
  lemma CanonicalIdentifiesSame(le: (string, string) -> bool, a: Json, b: Json)
    requires TotalOrder(le) && WellFormed(a) && WellFormed(b)
    ensures Canonicalize(le, a) == Canonicalize(le, b) <==> Same(a, b)
  {
    if Same(a, b) {
      SameIsCanonicallyEqual(le, a, b);
    }
    if Canonicalize(le, a) == Canonicalize(le, b) {
      CanonicallyEqualIsSame(le, a, b);
    }
  }

  lemma {:induction false} SortedFieldsAreSame(le: (string, string) -> bool, fields: seq<Field>, f: seq<Field>)
    requires DistinctKeys(f) && |f| == |fields|
    requires forall i :: 0 <= i < |f| ==> f[i].key == fields[i].key
    requires forall i :: 0 <= i < |f| ==> WellFormed(f[i].value) && Same(f[i].value, fields[i].value)
    ensures var g := SortFields(le, f); WellFormed(Object(g)) && Same(Object(g), Object(fields))
  {
    var g := SortFields(le, f);
    SortKeepsFields(le, f);
    forall k | 0 <= k < |g|
      ensures WellFormed(g[k].value) && HasKey(fields, g[k].key)
      ensures forall i :: 0 <= i < |fields| && fields[i].key == g[k].key ==> Same(g[k].value, fields[i].value)
    {
      assert g[k] in g;
      var i :| 0 <= i < |f| && f[i] == g[k];
      assert fields[i].key == g[k].key;
      assert forall j :: 0 <= j < |fields| && fields[j].key == g[k].key ==> f[j].key == f[i].key;
    }
    forall i | 0 <= i < |fields|
      ensures HasKey(g, fields[i].key)
    {
      assert f[i] in g;
      var k :| 0 <= k < |g| && g[k] == f[i];
      assert g[k].key == fields[i].key;
    }
  }

  lemma {:induction false} CanonicalIsSame(le: (string, string) -> bool, v: Json)
    requires WellFormed(v)
    ensures WellFormed(Canonicalize(le, v)) && Same(Canonicalize(le, v), v)
    decreases v
  {
    match v
    case Array(items) =>
      forall i | 0 <= i < |items|
        ensures WellFormed(Canonicalize(le, items[i])) && Same(Canonicalize(le, items[i]), items[i])
      {
        CanonicalIsSame(le, items[i]);
      }
    case Object(fields) =>
      forall i | 0 <= i < |fields|
        ensures WellFormed(Canonicalize(le, fields[i].value)) && Same(Canonicalize(le, fields[i].value), fields[i].value)
      {
        CanonicalIsSame(le, fields[i].value);
      }
      var f := CanonicalFields(le, fields);
      KeysOfCanonicalFields(le, fields);
      SortedFieldsAreSame(le, fields, f);
    case _ =>
  }

  /** A canonical value is its own canonical form. */
  lemma CanonicalizeIsIdempotent(le: (string, string) -> bool, v: Json)
    requires TotalOrder(le) && WellFormed(v)
    ensures Canonicalize(le, Canonicalize(le, v)) == Canonicalize(le, v)
  {
    CanonicalIsSame(le, v);
    SameIsCanonicallyEqual(le, Canonicalize(le, v), v);
  }

  // ---------- objects with the same keys ----------

  ghost predicate Leaf(v: Json) {
    !v.Array? && !v.Object? && !v.Date?
  }

  ghost predicate SameKeys(f: seq<Field>, g: seq<Field>) {
    |f| == |g| && forall i :: 0 <= i < |f| ==> f[i].key == g[i].key
  }

  /** Objects listing the same keys in the same places are the same only if their values are. */
  lemma SameFieldwise(f: seq<Field>, g: seq<Field>)
    requires SameKeys(f, g)
    ensures Same(Object(f), Object(g)) ==> forall i :: 0 <= i < |f| ==> Same(f[i].value, g[i].value)
    ensures Same(Object(f), Object(g)) ==> forall i :: 0 <= i < |f| && Leaf(f[i].value) && Leaf(g[i].value) ==> f[i].value == g[i].value
  {
  }
}
