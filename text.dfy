/**
 * Character and number helpers shared by the model: ASCII digit tests, the
 * `strings.ReplaceAll(s, c, "")` and `strings.ToUpper` operations, and the
 * decimal renderings behind `%d` and `%.2f`.
 */
module Text {

  predicate IsDigit(c: char) { '0' <= c <= '9' }

  predicate AllDigits(s: string) { forall i :: 0 <= i < |s| ==> IsDigit(s[i]) }

  predicate IsLower(c: char) { 'a' <= c <= 'z' }

  predicate IsUpper(c: char) { 'A' <= c <= 'Z' }

  predicate IsLetter(c: char) { IsLower(c) || IsUpper(c) }

  function DigitValue(c: char): (d: nat)
    requires IsDigit(c)
    ensures d < 10
  {
    (c as int - '0' as int) as nat
  }

  function DigitChar(d: nat): (c: char)
    requires d < 10
    ensures IsDigit(c) && DigitValue(c) == d
  {
    ('0' as int + d) as char
  }

  /** `strings.ReplaceAll(s, string(c), "")`. */
  function RemoveAll(s: string, c: char): (r: string)
    ensures |r| <= |s|
    ensures forall i :: 0 <= i < |r| ==> r[i] != c
    ensures c !in s ==> r == s
    ensures multiset(r) == multiset(s)[c := 0]
  {
    if s == [] then []
    else
      assert s == [s[0]] + s[1..];
      if s[0] == c then RemoveAll(s[1..], c)
      else [s[0]] + RemoveAll(s[1..], c)
  }

  /** Removal keeps the order of what stays: it works piece by piece. */
  lemma {:induction false} RemoveAllAppend(a: string, b: string, c: char)
    ensures RemoveAll(a + b, c) == RemoveAll(a, c) + RemoveAll(b, c)
  {
    if a == [] {
      assert a + b == b;
    } else {
      assert (a + b)[0] == a[0] && (a + b)[1..] == a[1..] + b;
      RemoveAllAppend(a[1..], b, c);
    }
  }

  function UpperChar(c: char): (u: char)
    ensures !IsLower(u)
    ensures !IsLower(c) ==> u == c
  {
    if IsLower(c) then (c as int - 32) as char else c
  }

  /** `strings.ToUpper` on ASCII text. */
  function ToUpper(s: string): (r: string)
    ensures |r| == |s|
    ensures forall i :: 0 <= i < |s| ==> r[i] == UpperChar(s[i])
    ensures (forall i :: 0 <= i < |s| ==> !IsLower(s[i])) ==> r == s
  {
    if s == [] then [] else [UpperChar(s[0])] + ToUpper(s[1..])
  }

  /** `%d` of a natural number. */
  function NatToString(n: nat): (s: string)
    ensures |s| >= 1 && AllDigits(s)
    decreases n
  {
    if n < 10 then [DigitChar(n)] else NatToString(n / 10) + [DigitChar(n % 10)]
  }

  /** `%d` of an integer. */
  function IntToString(i: int): (s: string)
    ensures |s| >= 1
    ensures i >= 0 <==> s[0] != '-'
  {
    if i >= 0 then NatToString(i) else "-" + NatToString(-i)
  }

  /** Reading back a run of digits; the inverse of `NatToString`. */
  function ParseNat(s: string): (n: nat)
    requires AllDigits(s)
  {
    if s == [] then 0 else 10 * ParseNat(s[..|s| - 1]) + DigitValue(s[|s| - 1])
  }

  lemma {:induction false} ParseNatToString(n: nat)
    ensures ParseNat(NatToString(n)) == n
    decreases n
  {
    var s := NatToString(n);
    if n >= 10 {
      ParseNatToString(n / 10);
      assert s[..|s| - 1] == NatToString(n / 10);
    }
  }

  /** Go's `int(x)` for a float: truncation toward zero. */
  function Trunc(x: real): (t: int)
    ensures x >= 0.0 ==> t as real <= x < t as real + 1.0
    ensures x < 0.0 ==> t as real - 1.0 < x <= t as real
  {
    if x >= 0.0 then x.Floor else -((-x).Floor)
  }

  /** `x` in hundredths rounded to the nearest integer, ties to even. */
  function RoundCents(x: real): (c: int)
    ensures (c as real) - 0.5 <= x * 100.0 <= (c as real) + 0.5
  {
    var f := (x * 100.0).Floor;
    var frac := x * 100.0 - f as real;
    if frac > 0.5 then f + 1
    else if frac < 0.5 then f
    else if f % 2 == 0 then f else f + 1
  }

  /** `%.2f`: the amount rounded to cents, rendered with two decimals. */
  function Fixed2(x: real): (s: string)
    ensures |s| >= 4
    ensures s[|s| - 3] == '.'
  {
    SignedCentsText(RoundCents(x))
  }

  /** A signed number of cents: a minus sign when negative, then the magnitude's text. */
  function SignedCentsText(c: int): string
  {
    if c < 0 then "-" + CentsText(-c) else CentsText(c)
  }

  /** A number of cents as whole units, a point and two digits. */
  function CentsText(m: nat): string
  {
    NatToString(m / 100) + "." + [DigitChar(m % 100 / 10), DigitChar(m % 10)]
  }

  /** The digits of `s` with the decimal point dropped. */
  function Undotted(s: string): string
    requires |s| >= 3
  {
    s[..|s| - 3] + s[|s| - 2..]
  }

  lemma ParseNatSnoc(t: string, d: char)
    requires AllDigits(t) && IsDigit(d)
    ensures AllDigits(t + [d]) && ParseNat(t + [d]) == 10 * ParseNat(t) + DigitValue(d)
  {
    assert (t + [d])[..|t|] == t;
  }

  /** With the point dropped, the text of `m` cents spells `m`. */
  lemma CentsTextReadsBack(m: nat)
    ensures AllDigits(Undotted(CentsText(m))) && ParseNat(Undotted(CentsText(m))) == m
  {
    var q := NatToString(m / 100);
    var d1, d2 := DigitChar(m % 100 / 10), DigitChar(m % 10);
    assert Undotted(CentsText(m)) == q + [d1] + [d2];
    ParseNatToString(m / 100);
    ParseNatSnoc(q, d1);
    ParseNatSnoc(q + [d1], d2);
  }

  /** A signed number of cents reads back: the sign, then its magnitude with the point dropped. */
  lemma SignedCentsTextReadsBack(c: int)
    ensures var s := SignedCentsText(c);
      var body := if c < 0 then s[1..] else s;
      (s[0] == '-' <==> c < 0) && |body| >= 4 && body[|body| - 3] == '.' &&
      AllDigits(Undotted(body)) && ParseNat(Undotted(body)) == if c < 0 then -c else c
  {
    var mag: nat := if c < 0 then -c else c;
    CentsTextReadsBack(mag);
    if c < 0 {
      assert ("-" + CentsText(mag))[1..] == CentsText(mag);
    } else {
      assert CentsText(mag)[0] != '-';
    }
  }

  /**
   * `%.2f` reads back: a minus sign exactly when the rounded cents are
   * negative, then digits that, with the point dropped, spell the number of
   * cents.
   */
  lemma Fixed2ReadsBack(x: real)
    ensures var s := Fixed2(x);
      var c := RoundCents(x);
      var body := if c < 0 then s[1..] else s;
      (s[0] == '-' <==> c < 0) && |body| >= 4 && body[|body| - 3] == '.' &&
      AllDigits(Undotted(body)) && ParseNat(Undotted(body)) == if c < 0 then -c else c
  {
    SignedCentsTextReadsBack(RoundCents(x));
  }
}
