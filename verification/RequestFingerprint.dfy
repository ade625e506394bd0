/** The request fingerprint: customer name and email are normalized on a copy before hashing. */
module RequestFingerprint {
  import opened Canonical
  import opened Fingerprint

  /** The characters String.prototype.trim removes. */
  predicate IsSpace(c: char) {
    var n := c as int;
    9 <= n <= 13 || n == 32 || n == 0xA0 || n == 0x1680 || 0x2000 <= n <= 0x200A
    || n == 0x2028 || n == 0x2029 || n == 0x202F || n == 0x205F || n == 0x3000 || n == 0xFEFF
  }

  function TrimStart(s: string): string {
    if s != "" && IsSpace(s[0]) then TrimStart(s[1..]) else s
  }

  function TrimEnd(s: string): string {
    if s != "" && IsSpace(s[|s| - 1]) then TrimEnd(s[..|s| - 1]) else s
  }

  function Trim(s: string): string {
    TrimEnd(TrimStart(s))
  }

  function LowerChar(c: char): char {
    if 'A' <= c <= 'Z' then (c as int + 32) as char else c
  }

  function Lower(s: string): (r: string)
    ensures |r| == |s|
    ensures forall i :: 0 <= i < |s| ==> r[i] == LowerChar(s[i])
  {
    if s == "" then "" else [LowerChar(s[0])] + Lower(s[1..])
  }

  function NormalizeText(key: string, s: string): string {
    if key == "customerName" then Trim(s) else if key == "customerEmail" then Lower(Trim(s)) else s
  }

  function NormalizeField(f: Field): Field {
    if f.value.String? then Field(f.key, String(NormalizeText(f.key, f.value.s))) else f
  }

  function Normalize(input: seq<Field>): (r: seq<Field>)
    ensures |r| == |input|
    ensures forall i :: 0 <= i < |input| ==> r[i] == NormalizeField(input[i])
  {
    if input == [] then [] else [NormalizeField(input[0])] + Normalize(input[1..])
  }

  function BookingRequestFingerprint(le: (string, string) -> bool, input: seq<Field>): string {
    FingerprintOf(le, Object(Normalize(input)))
  }

  lemma TrimKeepsTrimmed(s: string)
    requires s == "" || (!IsSpace(s[0]) && !IsSpace(s[|s| - 1]))
    ensures Trim(s) == s
  {
  }

  lemma {:induction false} StartIsCut(s: string)
    ensures |TrimStart(s)| <= |s| && TrimStart(s) == s[|s| - |TrimStart(s)|..]
    ensures TrimStart(s) == "" || !IsSpace(TrimStart(s)[0])
    ensures forall i :: 0 <= i < |s| - |TrimStart(s)| ==> IsSpace(s[i])
  {
    hide IsSpace;
    if s != "" && IsSpace(s[0]) {
      StartIsCut(s[1..]);
      assert forall i :: 0 < i < |s| ==> s[i] == s[1..][i - 1];
    }
  }

  lemma {:induction false} EndIsCut(s: string)
    ensures |TrimEnd(s)| <= |s| && TrimEnd(s) == s[..|TrimEnd(s)|]
    ensures TrimEnd(s) == "" || !IsSpace(TrimEnd(s)[|TrimEnd(s)| - 1])
    ensures forall i :: |TrimEnd(s)| <= i < |s| ==> IsSpace(s[i])
  {
    hide IsSpace;
    if s != "" && IsSpace(s[|s| - 1]) {
      EndIsCut(s[..|s| - 1]);
    }
  }

  /** Trimming cuts the spaces at both ends, all of them, and nothing else. */
  lemma TrimCutsSpaces(s: string) returns (from: nat, to: nat)
    ensures from <= to <= |s| && Trim(s) == s[from..to]
    ensures forall i :: 0 <= i < from || to <= i < |s| ==> IsSpace(s[i])
    ensures from < to ==> !IsSpace(s[from]) && !IsSpace(s[to - 1])
  {
    hide IsSpace;
    var t := TrimStart(s);
    StartIsCut(s);
    EndIsCut(t);
    from := |s| - |t|;
    to := from + |Trim(s)|;
    hide TrimStart, TrimEnd;
    forall i | to <= i < |s|
      ensures IsSpace(s[i])
    {
      assert t[i - from] == s[i];
    }
  }

  lemma TrimIsTrimmed(s: string)
    ensures var t := Trim(s); t == "" || (!IsSpace(t[0]) && !IsSpace(t[|t| - 1]))
  {
    hide IsSpace;
    StartIsCut(s);
    EndIsCut(TrimStart(s));
  }

  lemma LowerKeepsEnds(t: string)
    requires t == "" || (!IsSpace(t[0]) && !IsSpace(t[|t| - 1]))
    ensures Trim(Lower(t)) == Lower(t)
  {
    hide IsSpace, LowerChar, Trim;
    if t != "" {
      LowerKeepsSpace(t[0]);
      LowerKeepsSpace(t[|t| - 1]);
      assert Lower(t)[0] == LowerChar(t[0]) && Lower(t)[|t| - 1] == LowerChar(t[|t| - 1]);
    }
    TrimKeepsTrimmed(Lower(t));
  }

  lemma LowerKeepsSpace(c: char)
    ensures IsSpace(LowerChar(c)) <==> IsSpace(c)
  {
  }

  lemma LowerTwice(t: string)
    ensures Lower(Lower(t)) == Lower(t)
  {
    assert forall i :: 0 <= i < |t| ==> LowerChar(LowerChar(t[i])) == LowerChar(t[i]);
  }

  lemma NormalizeTextTwice(key: string, s: string)
    ensures NormalizeText(key, NormalizeText(key, s)) == NormalizeText(key, s)
  {
    var t := Trim(s);
    TrimIsTrimmed(s);
    if key == "customerName" {
      TrimKeepsTrimmed(t);
    } else if key == "customerEmail" {
      LowerKeepsEnds(t);
      LowerTwice(t);
    }
  }

  lemma NormalizeKeepsShape(input: seq<Field>)
    requires WellFormed(Object(input)) && FiniteNumbers(Object(input))
    ensures WellFormed(Object(Normalize(input))) && FiniteNumbers(Object(Normalize(input)))
  {
    var r := Normalize(input);
    forall i | 0 <= i < |r|
      ensures r[i].key == input[i].key && WellFormed(r[i].value) && FiniteNumbers(r[i].value)
    {
      assert r[i] == NormalizeField(input[i]);
    }
  }

  /** Normalizing a normalized request changes nothing, so padding and letter case of the contact never
      change the fingerprint; all other fields are untouched. */
  lemma NormalizationIsIdempotent(le: (string, string) -> bool, input: seq<Field>)
    ensures Normalize(Normalize(input)) == Normalize(input)
    ensures BookingRequestFingerprint(le, Normalize(input)) == BookingRequestFingerprint(le, input)
    ensures forall i :: 0 <= i < |input| && input[i].key != "customerName" && input[i].key != "customerEmail" ==>
              Normalize(input)[i] == input[i]
  {
    forall i | 0 <= i < |input|
      ensures NormalizeField(NormalizeField(input[i])) == NormalizeField(input[i])
    {
      if input[i].value.String? {
        NormalizeTextTwice(input[i].key, input[i].value.s);
      }
    }
    assert Normalize(Normalize(input)) == Normalize(input);
  }

  /** Two requests share a fingerprint exactly when their normalized fields are the same up to key order. */
  lemma RequestFingerprintIdentifies(le: (string, string) -> bool, a: seq<Field>, b: seq<Field>)
    requires TotalOrder(le) && WellFormed(Object(a)) && WellFormed(Object(b))
    requires FiniteNumbers(Object(a)) && FiniteNumbers(Object(b))
    ensures BookingRequestFingerprint(le, a) == BookingRequestFingerprint(le, b)
            <==> Same(Object(Normalize(a)), Object(Normalize(b)))
  {
    NormalizeKeepsShape(a);
    NormalizeKeepsShape(b);
    FingerprintIdentifiesSame(le, Object(Normalize(a)), Object(Normalize(b)));
  }

  lemma NormalizedAt(a: seq<Field>, i: nat, x: string)
    requires i < |a|
    ensures Normalize(a[i := Field(a[i].key, String(x))]) == Normalize(a)[i := Field(a[i].key, String(NormalizeText(a[i].key, x)))]
  {
    hide NormalizeText;
  }

  /** Two requests that differ only in one text have one fingerprint exactly when, for the customer's name, the trimmed texts are equal;
      for the customer's email, the trimmed texts are equal but for letter case; for any other field, the texts themselves are equal. */
  lemma OneTextDiffers(le: (string, string) -> bool, a: seq<Field>, i: nat, x: string, y: string)
    requires TotalOrder(le) && WellFormed(Object(a)) && FiniteNumbers(Object(a)) && i < |a|
    ensures BookingRequestFingerprint(le, a[i := Field(a[i].key, String(x))]) == BookingRequestFingerprint(le, a[i := Field(a[i].key, String(y))])
            <==> if a[i].key == "customerName" then Trim(x) == Trim(y)
                 else if a[i].key == "customerEmail" then
                   |Trim(x)| == |Trim(y)| && forall k :: 0 <= k < |Trim(x)| ==> LowerChar(Trim(x)[k]) == LowerChar(Trim(y)[k])
                 else x == y
  {
    hide BookingRequestFingerprint, Trim, WellFormed, FiniteNumbers, TotalOrder, Same;
    var key := a[i].key;
    var b, c := a[i := Field(key, String(x))], a[i := Field(key, String(y))];
    ReplacedKeepsShape(a, i, x);
    ReplacedKeepsShape(a, i, y);
    NormalizedAt(a, i, x);
    NormalizedAt(a, i, y);
    if NormalizeText(key, x) == NormalizeText(key, y) {
      assert Normalize(b) == Normalize(c);
      SameNormalizedSameFingerprint(le, b, c);
    }
    RequestFingerprintIdentifies(le, b, c);
    SameFieldwise(Normalize(b), Normalize(c));
    assert Normalize(b)[i].value == String(NormalizeText(key, x)) && Normalize(c)[i].value == String(NormalizeText(key, y));
    SameLower(Trim(x), Trim(y));
  }

  lemma SameLower(x: string, y: string)
    ensures Lower(x) == Lower(y) <==> |x| == |y| && forall k :: 0 <= k < |x| ==> LowerChar(x[k]) == LowerChar(y[k])
  {
    if Lower(x) == Lower(y) {
      forall k | 0 <= k < |x|
        ensures LowerChar(x[k]) == LowerChar(y[k])
      {
        assert Lower(x)[k] == Lower(y)[k];
      }
    }
  }

  lemma SameNormalizedSameFingerprint(le: (string, string) -> bool, a: seq<Field>, b: seq<Field>)
    requires Normalize(a) == Normalize(b)
    ensures BookingRequestFingerprint(le, a) == BookingRequestFingerprint(le, b)
  {
  }

  lemma ReplacedKeepsShape(a: seq<Field>, i: nat, x: string)
    requires WellFormed(Object(a)) && FiniteNumbers(Object(a)) && i < |a|
    ensures var b := a[i := Field(a[i].key, String(x))]; WellFormed(Object(b)) && FiniteNumbers(Object(b))
  {
  }
}
