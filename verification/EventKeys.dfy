/** Keys of the financial ledger: structured here, flat text in the database. */
module EventKeys {
  import opened Text

  datatype EventKey =
    | BookingConfirmedKey(booking: string)
    | BookingCancelledKey(booking: string)
    | ResolvedKey(cancellation: string)
    | RefundCreatedKey(refund: string)
    | RefundConfirmedKey(refund: string, version: int)
    | RefundFailedKey(refund: string, version: int)

  predicate ColonFree(s: string) {
    forall i :: 0 <= i < |s| ==> s[i] != ':'
  }

  function KeyId(k: EventKey): string {
    match k
    case BookingConfirmedKey(b) => b
    case BookingCancelledKey(b) => b
    case ResolvedKey(c) => c
    case RefundCreatedKey(r) => r
    case RefundConfirmedKey(r, _) => r
    case RefundFailedKey(r, _) => r
  }

  /** The three parts a key text is glued from: subject, id and the rest after the id's colon. */
  function Stem(k: EventKey): string {
    match k
    case BookingConfirmedKey(_) => "booking"
    case BookingCancelledKey(_) => "booking"
    case ResolvedKey(_) => "cancellation"
    case _ => "refund"
  }

  function Suffix(k: EventKey): string {
    match k
    case BookingConfirmedKey(_) => "confirmed"
    case BookingCancelledKey(_) => "cancelled"
    case ResolvedKey(_) => "financial-resolved"
    case RefundCreatedKey(_) => "created"
    case RefundConfirmedKey(_, v) => "confirmed" + (":" + IntText(v))
    case RefundFailedKey(_, v) => "failed" + (":" + IntText(v))
  }

  /** The text of a key, such as refund:<id>:failed:<version> or booking:<id>:cancelled. */
  function KeyText(k: EventKey): string {
    Stem(k) + (":" + (KeyId(k) + (":" + Suffix(k))))
  }

  lemma StartsWithColon(a: string, x: string)
    requires ColonFree(a)
    ensures var l := a + (":" + x); l != "" && (l[0] == ':' <==> a == "") && l[1..] == (if a == "" then x else a[1..] + (":" + x))
  {
    var l := a + (":" + x);
    if a == "" {
      assert l == ":" + x;
    } else {
      assert l[0] == a[0] && l[1..] == a[1..] + (":" + x);
    }
  }

  /** A colon-free head is recovered from the text it starts. */
  lemma {:induction false} ColonSplits(a: string, b: string, x: string, y: string)
    requires ColonFree(a) && ColonFree(b) && a + (":" + x) == b + (":" + y)
    ensures a == b && x == y
  {
    StartsWithColon(a, x);
    StartsWithColon(b, y);
    if a != "" {
      assert (a + (":" + x))[0] == a[0] && (b + (":" + y))[0] == b[0];
      ColonSplits(a[1..], b[1..], x, y);
      assert a == [a[0]] + a[1..] && b == [b[0]] + b[1..];
    }
  }

  lemma SuffixTells(k: EventKey, m: EventKey)
    requires Stem(k) == Stem(m) && KeyId(k) == KeyId(m) && Suffix(k) == Suffix(m)
    ensures k == m
  {
    hide IntText;
    var s, t := Suffix(k), Suffix(m);
    assert s[0] == t[0] && s[1] == t[1];
    if k.RefundConfirmedKey? && m.RefundConfirmedKey? {
      assert s[10..] == IntText(k.version) && t[10..] == IntText(m.version);
      IntTextInjective(k.version, m.version);
    }
    if k.RefundFailedKey? && m.RefundFailedKey? {
      assert s[7..] == IntText(k.version) && t[7..] == IntText(m.version);
      IntTextInjective(k.version, m.version);
    }
  }

  /** Different keys never share a text when ids hold no colon, so the upsert on texts is the upsert on keys. */
  lemma KeyTextInjective(k: EventKey, m: EventKey)
    requires ColonFree(KeyId(k)) && ColonFree(KeyId(m)) && KeyText(k) == KeyText(m)
    ensures k == m
  {
    ColonSplits(Stem(k), Stem(m), KeyId(k) + (":" + Suffix(k)), KeyId(m) + (":" + Suffix(m)));
    ColonSplits(KeyId(k), KeyId(m), Suffix(k), Suffix(m));
    SuffixTells(k, m);
  }
}
