/** The text that is hashed. SHA-256 is taken to be injective on its input, so a fingerprint is identified with the
    text it hashes; what remains to be shown is that the text determines the value. */
module Fingerprint {
  import opened Text
  import opened Canonical

  function HexDigit(d: nat): char
    requires d < 16
  {
    if d < 10 then DigitChar(d) else (d + 87) as char
  }

  function EscapeChar(c: char): string {
    var n := c as int;
    if c == '"' then ['\\', '"']
    else if c == '\\' then ['\\', '\\']
    else if n == 8 then ['\\', 'b']
    else if n == 9 then ['\\', 't']
    else if n == 10 then ['\\', 'n']
    else if n == 12 then ['\\', 'f']
    else if n == 13 then ['\\', 'r']
    else if n < 32 then ['\\', 'u', '0', '0', HexDigit(n / 16), HexDigit(n % 16)]
    else [c]
  }

  function Escape(s: string): string {
    if s == "" then "" else EscapeChar(s[0]) + Escape(s[1..])
  }

  function Quote(s: string): string {
    "\"" + Escape(s) + "\""
  }

  /** JSON.stringify without indentation. */
  function Stringify(v: Json): string
    decreases v, 1
  {
    match v
    case Null => "null"
    case Bool(b) => if b then "true" else "false"
    case Number(text) => text
    case String(s) => Quote(s)
    case Date(iso) => Quote(iso)
    case Array(items) => "[" + ItemsText(items) + "]"
    case Object(fields) => "{" + FieldsText(fields) + "}"
  }

  function ItemsText(items: seq<Json>): string
    decreases items, 0
  {
    if items == [] then "" else Stringify(items[0]) + MoreItems(items[1..])
  }

  function MoreItems(items: seq<Json>): string
    decreases items, 0
  {
    if items == [] then "" else "," + Stringify(items[0]) + MoreItems(items[1..])
  }

  function FieldText(f: Field): string
    decreases f, 0
  {
    Quote(f.key) + ":" + Stringify(f.value)
  }

  function FieldsText(fields: seq<Field>): string
    decreases fields, 0
  {
    if fields == [] then "" else FieldText(fields[0]) + MoreFields(fields[1..])
  }

  function MoreFields(fields: seq<Field>): string
    decreases fields, 0
  {
    if fields == [] then "" else "," + FieldText(fields[0]) + MoreFields(fields[1..])
  }

  // ---------- which texts are printable numbers ----------

  predicate NumberChar(c: char) {
    IsDigit(c) || c == '-' || c == '+' || c == '.' || c == 'e' || c == 'E'
  }

  /** The finite numbers: JavaScript prints them with digits, sign, point and exponent only. */
  predicate NumberText(t: string) {
    t != "" && (IsDigit(t[0]) || t[0] == '-') && forall i :: 0 <= i < |t| ==> NumberChar(t[i])
  }

  ghost predicate FiniteNumbers(v: Json) {
    match v
    case Number(text) => NumberText(text)
    case Array(items) => forall i :: 0 <= i < |items| ==> FiniteNumbers(items[i])
    case Object(fields) => forall i :: 0 <= i < |fields| ==> FiniteNumbers(fields[i].value)
    case _ => true
  }

  /** Canonical values hold no Date: its ISO text has taken its place. */
  ghost predicate DateFree(v: Json) {
    match v
    case Date(_) => false
    case Array(items) => forall i :: 0 <= i < |items| ==> DateFree(items[i])
    case Object(fields) => forall i :: 0 <= i < |fields| ==> DateFree(fields[i].value)
    case _ => true
  }

  // ---------- the text is a prefix code ----------

  lemma Cancel(a: string, b: string, x: string, y: string)
    requires a + x == b + y && |a| == |b|
    ensures a == b && x == y
  {
    assert (a + x)[..|a|] == a && (b + y)[..|b|] == b;
    assert (a + x)[|a|..] == x && (b + y)[|b|..] == y;
  }

  lemma HexDigitInjective(d: nat, e: nat)
    requires d < 16 && e < 16 && HexDigit(d) == HexDigit(e)
    ensures d == e
  {
  }

  lemma EscapeCharPrefix(c: char, d: char, x: string, y: string)
    requires EscapeChar(c) + x == EscapeChar(d) + y
    ensures c == d && x == y
  {
    var s, t := EscapeChar(c), EscapeChar(d);
    assert (s + x)[0] == s[0] && (t + y)[0] == t[0];
    if |s| > 1 && |t| > 1 {
      assert (s + x)[1] == s[1] && (t + y)[1] == t[1];
    }
    assert |s| == |t|;
    Cancel(s, t, x, y);
    if |s| == 6 {
      HexDigitInjective(c as int / 16, d as int / 16);
      HexDigitInjective(c as int % 16, d as int % 16);
    }
  }

  /** The text of a string and everything after its opening quote. */
  function Quoted(s: string, x: string): string {
    Escape(s) + ("\"" + x)
  }

  /** Only the end of a quoted text shows a bare quote. */
  lemma QuotedStart(s: string, x: string)
    ensures Quoted(s, x) != "" && (Quoted(s, x)[0] == '"' <==> s == "")
    ensures s == "" ==> Quoted(s, x) == "\"" + x
    ensures s != "" ==> Quoted(s, x) == EscapeChar(s[0]) + Quoted(s[1..], x)
  {
    if s != "" {
      var head, rest := EscapeChar(s[0]), Escape(s[1..]);
      Associates(head, rest, "\"" + x);
      BareQuoteIsEscaped(s[0]);
      assert (head + Quoted(s[1..], x))[0] == head[0];
    } else {
      assert Quoted(s, x) == "\"" + x;
    }
  }

  lemma BareQuoteIsEscaped(c: char)
    ensures EscapeChar(c) != "" && EscapeChar(c)[0] != '"'
  {
  }

  lemma Associates(a: string, b: string, c: string)
    ensures (a + b) + c == a + (b + c)
  {
  }

  lemma {:induction false} EscapePrefix(s: string, t: string, x: string, y: string)
    requires Quoted(s, x) == Quoted(t, y)
    ensures s == t && x == y
  {
    QuotedStart(s, x);
    QuotedStart(t, y);
    if s == "" {
      Cancel("\"", "\"", x, y);
    } else {
      EscapeCharPrefix(s[0], t[0], Quoted(s[1..], x), Quoted(t[1..], y));
      EscapePrefix(s[1..], t[1..], x, y);
      assert s == [s[0]] + s[1..] && t == [t[0]] + t[1..];
    }
  }

  lemma QuotePrefix(s: string, t: string, x: string, y: string)
    requires Quote(s) + x == Quote(t) + y
    ensures s == t && x == y
  {
    assert Quote(s) + x == "\"" + Quoted(s, x) && Quote(t) + y == "\"" + Quoted(t, y);
    Cancel("\"", "\"", Quoted(s, x), Quoted(t, y));
    EscapePrefix(s, t, x, y);
  }

  /** What can follow a value inside a text. */
  predicate Boundary(x: string) {
    x == "" || x[0] == ',' || x[0] == ']' || x[0] == '}'
  }

  lemma NumberStart(t: string, y: string)
    requires t != "" && NumberChar(t[0])
    ensures !Boundary(t + y)
  {
    assert (t + y)[0] == t[0];
  }

  lemma {:induction false} NumberPrefix(s: string, t: string, x: string, y: string)
    requires forall i :: 0 <= i < |s| ==> NumberChar(s[i])
    requires forall i :: 0 <= i < |t| ==> NumberChar(t[i])
    requires Boundary(x) && Boundary(y) && s + x == t + y
    ensures s == t && x == y
  {
    assert "" + x == x && "" + y == y;
    if s != "" && t != "" {
      assert s + x == [s[0]] + (s[1..] + x) && t + y == [t[0]] + (t[1..] + y);
      Cancel([s[0]], [t[0]], s[1..] + x, t[1..] + y);
      NumberPrefix(s[1..], t[1..], x, y);
      assert s == [s[0]] + s[1..] && t == [t[0]] + t[1..];
    } else if t != "" {
      NumberStart(t, y);
    } else if s != "" {
      NumberStart(s, x);
    }
  }

  /** The first character tells the kinds of value apart. */
  function Kind(v: Json): nat {
    match v
    case Null => 0
    case Bool(b) => if b then 1 else 2
    case Number(_) => 3
    case String(_) => 4
    case Date(_) => 4
    case Array(_) => 5
    case Object(_) => 6
  }

  function KindOf(c: char): nat {
    if c == 'n' then 0 else if c == 't' then 1 else if c == 'f' then 2
    else if c == '"' then 4 else if c == '[' then 5 else if c == '{' then 6 else 3
  }

  lemma FirstCharTellsKind(v: Json, x: string)
    requires FiniteNumbers(v)
    ensures Stringify(v) != "" && KindOf((Stringify(v) + x)[0]) == Kind(v)
    ensures var c := (Stringify(v) + x)[0]; c != ']' && c != '}' && c != ','
  {
  }

  lemma SameKind(a: Json, b: Json, x: string, y: string)
    requires FiniteNumbers(a) && FiniteNumbers(b) && Stringify(a) + x == Stringify(b) + y
    ensures Kind(a) == Kind(b)
  {
    FirstCharTellsKind(a, x);
    FirstCharTellsKind(b, y);
  }

  ghost predicate Printable(v: Json) {
    FiniteNumbers(v) && DateFree(v)
  }

  lemma {:induction false} TextPrefix(a: Json, b: Json, x: string, y: string)
    requires Printable(a) && Printable(b)
    requires Boundary(x) && Boundary(y) && Stringify(a) + x == Stringify(b) + y
    ensures a == b && x == y
    decreases a, 1
  {
    SameKind(a, b, x, y);
    match a
    case Null => Cancel("null", "null", x, y);
    case Bool(_) => Cancel(Stringify(a), Stringify(b), x, y);
    case Number(s) => NumberPrefix(s, b.text, x, y);
    case String(s) => QuotePrefix(s, b.s, x, y);
    case Array(items) =>
      Enclosed("[", ItemsText(items), ItemsText(b.items), "]", x, y);
      ItemsPrefix(items, b.items, "]" + x, "]" + y);
      Cancel("]", "]", x, y);
    case Object(fields) =>
      Enclosed("{", FieldsText(fields), FieldsText(b.fields), "}", x, y);
      FieldsPrefix(fields, b.fields, "}" + x, "}" + y);
      Cancel("}", "}", x, y);
  }

  lemma Enclosed(left: string, p: string, q: string, right: string, x: string, y: string)
    requires (left + p + right) + x == (left + q + right) + y
    ensures p + (right + x) == q + (right + y)
  {
    assert (left + p + right) + x == left + (p + (right + x));
    assert (left + q + right) + y == left + (q + (right + y));
    Cancel(left, left, p + (right + x), q + (right + y));
  }

  /** A list ends with a closing bracket, which no value and no comma can begin. */
  predicate Closes(x: string) {
    x != "" && (x[0] == ']' || x[0] == '}')
  }

  lemma ItemsStart(v: Json, rest: string, x: string)
    requires FiniteNumbers(v)
    ensures Stringify(v) + rest + x == Stringify(v) + (rest + x)
    ensures !Closes(Stringify(v) + rest + x)
  {
    assert Stringify(v) + rest + x == Stringify(v) + (rest + x);
    FirstCharTellsKind(v, rest + x);
  }

  lemma MoreStart(s: string, rest: string, x: string)
    ensures "," + s + rest + x == "," + (s + (rest + x))
    ensures !Closes("," + s + rest + x)
  {
    assert "," + s + rest + x == "," + (s + (rest + x));
  }

  lemma {:induction false} ItemsPrefix(a: seq<Json>, b: seq<Json>, x: string, y: string)
    requires forall i :: 0 <= i < |a| ==> Printable(a[i])
    requires forall i :: 0 <= i < |b| ==> Printable(b[i])
    requires Closes(x) && Closes(y) && ItemsText(a) + x == ItemsText(b) + y
    ensures a == b && x == y
    decreases a, 0
  {
    assert "" + x == x && "" + y == y;
    if a != [] { ItemsStart(a[0], MoreItems(a[1..]), x); }
    if b != [] { ItemsStart(b[0], MoreItems(b[1..]), y); }
    if a != [] {
      MoreItemsBoundary(a[1..], x);
      MoreItemsBoundary(b[1..], y);
      TextPrefix(a[0], b[0], MoreItems(a[1..]) + x, MoreItems(b[1..]) + y);
      MoreItemsPrefix(a[1..], b[1..], x, y);
      assert a == [a[0]] + a[1..] && b == [b[0]] + b[1..];
    }
  }

  lemma MoreItemsBoundary(items: seq<Json>, x: string)
    requires Closes(x)
    ensures Boundary(MoreItems(items) + x)
  {
    assert "" + x == x;
    if items != [] { MoreStart(Stringify(items[0]), MoreItems(items[1..]), x); }
  }

  lemma {:induction false} MoreItemsPrefix(a: seq<Json>, b: seq<Json>, x: string, y: string)
    requires forall i :: 0 <= i < |a| ==> Printable(a[i])
    requires forall i :: 0 <= i < |b| ==> Printable(b[i])
    requires Closes(x) && Closes(y) && MoreItems(a) + x == MoreItems(b) + y
    ensures a == b && x == y
    decreases a, 0
  {
    assert "" + x == x && "" + y == y;
    if a != [] { MoreStart(Stringify(a[0]), MoreItems(a[1..]), x); }
    if b != [] { MoreStart(Stringify(b[0]), MoreItems(b[1..]), y); }
    if a != [] {
      var p, q := MoreItems(a[1..]) + x, MoreItems(b[1..]) + y;
      Cancel(",", ",", Stringify(a[0]) + p, Stringify(b[0]) + q);
      MoreItemsBoundary(a[1..], x);
      MoreItemsBoundary(b[1..], y);
      TextPrefix(a[0], b[0], p, q);
      MoreItemsPrefix(a[1..], b[1..], x, y);
      assert a == [a[0]] + a[1..] && b == [b[0]] + b[1..];
    }
  }

  lemma Regroup(k: string, v: string, x: string)
    ensures (k + ":" + v) + x == k + (":" + (v + x))
  {
  }

  lemma {:induction false} FieldPrefix(f: Field, g: Field, x: string, y: string)
    requires Printable(f.value) && Printable(g.value)
    requires Boundary(x) && Boundary(y) && FieldText(f) + x == FieldText(g) + y
    ensures f == g && x == y
    decreases f, 2
  {
    var u, w := Stringify(f.value) + x, Stringify(g.value) + y;
    Regroup(Quote(f.key), Stringify(f.value), x);
    Regroup(Quote(g.key), Stringify(g.value), y);
    QuotePrefix(f.key, g.key, ":" + u, ":" + w);
    Cancel(":", ":", u, w);
    TextPrefix(f.value, g.value, x, y);
  }

  lemma FieldsStart(f: Field, rest: string, x: string)
    ensures FieldText(f) + rest + x == FieldText(f) + (rest + x)
    ensures !Closes(FieldText(f) + rest + x)
  {
    assert FieldText(f) + rest + x == FieldText(f) + (rest + x);
    assert FieldText(f)[0] == '"';
  }

  lemma {:induction false} FieldsPrefix(a: seq<Field>, b: seq<Field>, x: string, y: string)
    requires forall i :: 0 <= i < |a| ==> Printable(a[i].value)
    requires forall i :: 0 <= i < |b| ==> Printable(b[i].value)
    requires Closes(x) && Closes(y) && FieldsText(a) + x == FieldsText(b) + y
    ensures a == b && x == y
    decreases a, 0
  {
    assert "" + x == x && "" + y == y;
    if a != [] { FieldsStart(a[0], MoreFields(a[1..]), x); }
    if b != [] { FieldsStart(b[0], MoreFields(b[1..]), y); }
    if a != [] {
      MoreFieldsBoundary(a[1..], x);
      MoreFieldsBoundary(b[1..], y);
      FieldPrefix(a[0], b[0], MoreFields(a[1..]) + x, MoreFields(b[1..]) + y);
      MoreFieldsPrefix(a[1..], b[1..], x, y);
      assert a == [a[0]] + a[1..] && b == [b[0]] + b[1..];
    }
  }

  lemma MoreFieldsBoundary(fields: seq<Field>, x: string)
    requires Closes(x)
    ensures Boundary(MoreFields(fields) + x)
  {
    assert "" + x == x;
    if fields != [] { MoreStart(FieldText(fields[0]), MoreFields(fields[1..]), x); }
  }

  lemma {:induction false} MoreFieldsPrefix(a: seq<Field>, b: seq<Field>, x: string, y: string)
    requires forall i :: 0 <= i < |a| ==> Printable(a[i].value)
    requires forall i :: 0 <= i < |b| ==> Printable(b[i].value)
    requires Closes(x) && Closes(y) && MoreFields(a) + x == MoreFields(b) + y
    ensures a == b && x == y
    decreases a, 0
  {
    assert "" + x == x && "" + y == y;
    if a != [] { MoreStart(FieldText(a[0]), MoreFields(a[1..]), x); }
    if b != [] { MoreStart(FieldText(b[0]), MoreFields(b[1..]), y); }
    if a != [] {
      var p, q := MoreFields(a[1..]) + x, MoreFields(b[1..]) + y;
      Cancel(",", ",", FieldText(a[0]) + p, FieldText(b[0]) + q);
      MoreFieldsBoundary(a[1..], x);
      MoreFieldsBoundary(b[1..], y);
      FieldPrefix(a[0], b[0], p, q);
      MoreFieldsPrefix(a[1..], b[1..], x, y);
      assert a == [a[0]] + a[1..] && b == [b[0]] + b[1..];
    }
  }

  /** Two printable date-free values with the same text are the same value. */
  lemma StringifyInjective(a: Json, b: Json)
    requires FiniteNumbers(a) && FiniteNumbers(b) && DateFree(a) && DateFree(b)
    requires Stringify(a) == Stringify(b)
    ensures a == b
  {
    assert Stringify(a) + "" == Stringify(a) && Stringify(b) + "" == Stringify(b);
    TextPrefix(a, b, "", "");
  }

  // ---------- fingerprints ----------

  function FingerprintOf(le: (string, string) -> bool, v: Json): string {
    Stringify(Canonicalize(le, v))
  }

  lemma {:induction false} CanonicalIsPrintable(le: (string, string) -> bool, v: Json)
    requires FiniteNumbers(v)
    ensures FiniteNumbers(Canonicalize(le, v)) && DateFree(Canonicalize(le, v))
    decreases v
  {
    match v
    case Array(items) =>
      forall i | 0 <= i < |items|
        ensures FiniteNumbers(Canonicalize(le, items[i])) && DateFree(Canonicalize(le, items[i]))
      {
        CanonicalIsPrintable(le, items[i]);
      }
    case Object(fields) =>
      forall i | 0 <= i < |fields|
        ensures FiniteNumbers(Canonicalize(le, fields[i].value)) && DateFree(Canonicalize(le, fields[i].value))
      {
        CanonicalIsPrintable(le, fields[i].value);
      }
      var f := CanonicalFields(le, fields);
      SortKeepsFields(le, f);
      forall k | 0 <= k < |SortFields(le, f)|
        ensures FiniteNumbers(SortFields(le, f)[k].value) && DateFree(SortFields(le, f)[k].value)
      {
        assert SortFields(le, f)[k] in f;
      }
    case _ =>
  }

  /** Equal fingerprints mean the same value, whatever collation sorted the keys. */
  lemma EqualFingerprintsAreSame(le: (string, string) -> bool, a: Json, b: Json)
    requires WellFormed(a) && WellFormed(b) && FiniteNumbers(a) && FiniteNumbers(b)
    requires FingerprintOf(le, a) == FingerprintOf(le, b)
    ensures Same(a, b)
  {
    CanonicalIsPrintable(le, a);
    CanonicalIsPrintable(le, b);
    StringifyInjective(Canonicalize(le, a), Canonicalize(le, b));
    CanonicallyEqualIsSame(le, a, b);
  }

  /** Fingerprints agree exactly on values that are the same up to key order. */
  lemma FingerprintIdentifiesSame(le: (string, string) -> bool, a: Json, b: Json)
    requires TotalOrder(le) && WellFormed(a) && WellFormed(b) && FiniteNumbers(a) && FiniteNumbers(b)
    ensures FingerprintOf(le, a) == FingerprintOf(le, b) <==> Same(a, b)
  {
    if Same(a, b) {
      SameIsCanonicallyEqual(le, a, b);
    }
    if FingerprintOf(le, a) == FingerprintOf(le, b) {
      EqualFingerprintsAreSame(le, a, b);
    }
  }
}
