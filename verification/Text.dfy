/** Decimal text: the printed forms that reach fingerprints and event keys, and the money parser. */
module Text {
  import opened Wrappers

  predicate IsDigit(c: char) {
    '0' <= c <= '9'
  }

  predicate AllDigits(s: string) {
    forall i :: 0 <= i < |s| ==> IsDigit(s[i])
  }

  function DigitChar(d: nat): (c: char)
    requires d < 10
    ensures IsDigit(c) && DigitValue(c) == d
  {
    (d + 48) as char
  }

  function DigitValue(c: char): (d: nat)
    requires IsDigit(c)
    ensures d < 10
  {
    c as int - 48
  }

  function NatText(n: nat): string {
    if n < 10 then [DigitChar(n)] else NatText(n / 10) + [DigitChar(n % 10)]
  }

  function NatValue(s: string): nat
    requires AllDigits(s)
  {
    if s == "" then 0 else NatValue(s[..|s| - 1]) * 10 + DigitValue(s[|s| - 1])
  }

  lemma {:induction false} NatTextRoundTrip(n: nat)
    ensures NatText(n) != "" && AllDigits(NatText(n)) && NatValue(NatText(n)) == n
    ensures n > 0 ==> NatText(n)[0] != '0'
  {
    if n < 10 {
      assert NatText(n)[..0] == "";
    } else {
      NatTextRoundTrip(n / 10);
      var s := NatText(n);
      assert s[..|s| - 1] == NatText(n / 10);
    }
  }

  function IntText(i: int): string {
    if i < 0 then "-" + NatText(-i) else NatText(i)
  }

  lemma IntTextInjective(i: int, j: int)
    requires IntText(i) == IntText(j)
    ensures i == j
  {
    NatTextRoundTrip(if i < 0 then -i else i);
    NatTextRoundTrip(if j < 0 then -j else j);
    if i < 0 && j < 0 {
      assert IntText(i)[1..] == NatText(-i) && IntText(j)[1..] == NatText(-j);
    }
  }

  // ---------- money ----------

  /** The text of a two-decimal amount held in minor units: no trailing zeros, no bare point. */
  function MoneyText(minor: int): string {
    if minor < 0 then "-" + UnsignedMoneyText(-minor) else UnsignedMoneyText(minor)
  }

  function UnsignedMoneyText(minor: nat): string {
    var cents := minor % 100;
    if cents == 0 then NatText(minor / 100)
    else if cents % 10 == 0 then NatText(minor / 100) + "." + [DigitChar(cents / 10)]
    else NatText(minor / 100) + "." + [DigitChar(cents / 10), DigitChar(cents % 10)]
  }

  /** Index of the decimal point, or the length of the text when there is none. */
  function PointAt(s: string): (p: nat)
    ensures p <= |s|
    ensures forall i :: 0 <= i < p ==> s[i] != '.'
    ensures p < |s| ==> s[p] == '.'
  {
    if s == "" || s[0] == '.' then 0 else 1 + PointAt(s[1..])
  }

  lemma {:induction false} PointAtSplit(whole: string, rest: string)
    requires AllDigits(whole)
    requires rest == "" || rest[0] == '.'
    ensures PointAt(whole + rest) == |whole|
  {
    if whole == "" {
      assert whole + rest == rest;
    } else {
      assert (whole + rest)[1..] == whole[1..] + rest;
      PointAtSplit(whole[1..], rest);
    }
  }

  /** Accepts 0 or a number without leading zeros, then at most two decimals; the result is in minor units. */
  function ParseMoney(s: string): Option<nat> {
    var p := PointAt(s);
    var whole := s[..p];
    if whole == "" || !AllDigits(whole) || (|whole| > 1 && whole[0] == '0') then None
    else if p == |s| then Some(NatValue(whole) * 100)
    else
      var cents := s[p + 1..];
      if !AllDigits(cents) then None
      else if |cents| == 1 then Some(NatValue(whole) * 100 + DigitValue(cents[0]) * 10)
      else if |cents| == 2 then Some(NatValue(whole) * 100 + DigitValue(cents[0]) * 10 + DigitValue(cents[1]))
      else None
  }

  lemma ParseMoneyReadsMoneyText(minor: nat)
    ensures ParseMoney(MoneyText(minor)) == Some(minor)
  {
    var s := MoneyText(minor);
    var whole := NatText(minor / 100);
    var cents := minor % 100;
    NatTextRoundTrip(minor / 100);
    assert |whole| > 1 ==> whole[0] != '0' by {
      if minor / 100 == 0 { assert whole == [DigitChar(0)]; }
    }
    var rest := if cents == 0 then ""
                else if cents % 10 == 0 then "." + [DigitChar(cents / 10)]
                else "." + [DigitChar(cents / 10), DigitChar(cents % 10)];
    assert s == whole + rest;
    PointAtSplit(whole, rest);
    assert s[..|whole|] == whole;
    if cents != 0 {
      assert s[|whole| + 1..] == rest[1..];
    }
  }

  lemma MoneyTextInjective(m: int, n: int)
    requires MoneyText(m) == MoneyText(n)
    ensures m == n
  {
    NatTextRoundTrip((if m < 0 then -m else m) / 100);
    NatTextRoundTrip((if n < 0 then -n else n) / 100);
    ParseMoneyReadsMoneyText(if m < 0 then -m else m);
    ParseMoneyReadsMoneyText(if n < 0 then -n else n);
    if m < 0 && n < 0 {
      assert MoneyText(m)[1..] == UnsignedMoneyText(-m) && MoneyText(n)[1..] == UnsignedMoneyText(-n);
    }
  }

  // ---------- decimals of any length ----------

  predicate IsDecimalText(s: string) {
    var u := if s != "" && s[0] == '-' then s[1..] else s;
    var p := PointAt(u);
    p > 0 && AllDigits(u[..p]) && (p < |u| ==> p + 1 < |u| && AllDigits(u[p + 1..]))
  }

  /** The text of a stored decimal, such as the charge value of a policy rule. */
  type DecimalText = s: string | IsDecimalText(s) witness "0"

  function FractionValue(s: string): real
    requires AllDigits(s)
  {
    if s == "" then 0.0 else (DigitValue(s[0]) as real + FractionValue(s[1..])) / 10.0
  }

  function DecimalValue(s: DecimalText): real {
    var negative := s[0] == '-';
    var u := if negative then s[1..] else s;
    var p := PointAt(u);
    var size := NatValue(u[..p]) as real + (if p < |u| then FractionValue(u[p + 1..]) else 0.0);
    if negative then -size else size
  }

  /** What the money parser accepts is a decimal text, and its minor units are a hundred times that decimal. */
  lemma ParseMoneyIsDecimal(s: string)
    requires ParseMoney(s).Some?
    ensures IsDecimalText(s) && DecimalValue(s) * 100.0 == ParseMoney(s).value as real
  {
    var p := PointAt(s);
    assert s != "" && IsDigit(s[0]) by {
      assert s[..p][0] == s[0];
    }
    if p < |s| {
      var cents := s[p + 1..];
      assert FractionValue(cents[1..]) == (if |cents| == 2 then DigitValue(cents[1]) as real / 10.0 else 0.0) by {
        if |cents| == 2 {
          assert cents[1..][1..] == "";
        }
      }
    }
  }
}
