/** Money between the database, the sums and the response: src/customer-insights/spend.util.ts. */
module Money {
  import opened Totals

  // ─── Numerals ──────────────────────────────────────────────────────────────────

  predicate IsDigit(c: char) {
    '0' <= c <= '9'
  }

  function DigitValue(c: char): nat
    requires IsDigit(c)
  {
    (c as int) - ('0' as int)
  }

  function DigitChar(d: nat): (c: char)
    requires d < 10
    ensures IsDigit(c) && DigitValue(c) == d
  {
    (d + ('0' as int)) as char
  }

  predicate AllDigits(text: string) {
    forall i :: 0 <= i < |text| ==> IsDigit(text[i])
  }

  function Numeral(n: nat): (text: string)
    ensures AllDigits(text) && |text| > 0
  {
    if n < 10 then [DigitChar(n)] else Numeral(n / 10) + [DigitChar(n % 10)]
  }

  function ValueOf(text: string): nat
    requires AllDigits(text)
  {
    if text == "" then 0 else 10 * ValueOf(text[..|text| - 1]) + DigitValue(text[|text| - 1])
  }

  lemma {:induction false} NumeralRoundTrip(n: nat)
    ensures ValueOf(Numeral(n)) == n
  {
    if n >= 10 {
      NumeralRoundTrip(n / 10);
      assert Numeral(n)[..|Numeral(n)| - 1] == Numeral(n / 10);
    } else {
      assert Numeral(n)[..0] == "";
    }
  }

  function Pow10(k: nat): (p: int)
    ensures p > 0
  {
    if k == 0 then 1 else 10 * Pow10(k - 1)
  }

  // ─── Rounding ──────────────────────────────────────────────────────────────────

  /** `Math.round` of a fraction: the nearest integer, and the greater of two. */
  function Round(num: int, den: int): int
    requires den > 0
  {
    (2 * num + den) / (2 * den)
  }

  lemma RoundIsNearest(num: int, den: int)
    requires den > 0
    ensures -den <= 2 * (den * Round(num, den) - num) <= den
  {
    var r := Round(num, den);
    assert 2 * num + den == (2 * den) * r + (2 * num + den) % (2 * den);
    assert (2 * den) * r == 2 * (den * r);
  }

  lemma Cancel(total: int, gap: int, n: int)
    requires total > 0
    ensures total * gap <= total * n ==> gap <= n
  {
    if gap > n {
      assert total * (gap - n) > 0;
      assert total * (gap - n) == total * gap - total * n;
    }
  }

  lemma RoundOfWhole(n: int, den: int)
    requires den > 0
    ensures Round(den * n, den) == n
  {
    RoundIsNearest(den * n, den);
    var gap := 2 * (Round(den * n, den) - n);
    assert den * gap == 2 * (den * Round(den * n, den) - den * n);
    assert den * -gap == -(den * gap);
    Cancel(den, gap, 1);
    Cancel(den, -gap, 1);
  }

  // ─── toCents and centsToMoney ──────────────────────────────────────────────────

  function PointAt(text: string): (i: nat)
    ensures i <= |text|
    ensures i < |text| ==> text[i] == '.'
    ensures forall k :: 0 <= k < i ==> text[k] != '.'
  {
    if text == "" || text[0] == '.' then 0 else 1 + PointAt(text[1..])
  }

  /** Pesewas of a decimal numeral without its sign; anything that is not a number counts as nothing. */
  function UnsignedCents(text: string, negative: bool): int {
    var p := PointAt(text);
    var whole, part := text[..p], if p < |text| then text[p + 1..] else "";
    if AllDigits(whole) && AllDigits(part) && |whole| + |part| > 0 then
      var scale := Pow10(|part|);
      var units := ValueOf(whole) * scale + ValueOf(part);
      Round(100 * (if negative then -units else units), scale)
    else 0
  }

  /** `toCents` of a money string as Postgres and `centsToMoney` print it. */
  function ToCents(text: string): int {
    if text != "" && text[0] == '-' then UnsignedCents(text[1..], true) else UnsignedCents(text, false)
  }

  function Padded(n: nat): (text: string)
    requires n < 100
    ensures |text| == 2 && AllDigits(text) && ValueOf(text) == n
  {
    var text := [DigitChar(n / 10), DigitChar(n % 10)];
    assert text[..1] == [DigitChar(n / 10)] && [DigitChar(n / 10)][..0] == "";
    assert ValueOf([DigitChar(n / 10)]) == n / 10;
    text
  }

  /** `centsToMoney`: a money string with exactly two decimals. */
  function CentsToMoney(cents: int): string {
    var abs := if cents < 0 then -cents else cents;
    (if cents < 0 then "-" else "") + Numeral(abs / 100) + "." + Padded(abs % 100)
  }

  lemma {:induction false} FindsPoint(whole: string, part: string)
    requires AllDigits(whole)
    ensures PointAt(whole + "." + part) == |whole|
  {
    if whole != "" {
      FindsPoint(whole[1..], part);
      assert (whole + "." + part)[1..] == whole[1..] + "." + part;
    }
  }

  lemma UnsignedRoundTrip(abs: int, negative: bool)
    requires abs >= 0
    ensures UnsignedCents(Numeral(abs / 100) + "." + Padded(abs % 100), negative) == if negative then -abs else abs
  {
    hide Numeral, Round;
    var whole, part := Numeral(abs / 100), Padded(abs % 100);
    var text := whole + "." + part;
    FindsPoint(whole, part);
    assert text[..|whole|] == whole && text[|whole| + 1..] == part;
    NumeralRoundTrip(abs / 100);
    assert Pow10(2) == 100 by {
      assert Pow10(1) == 10 * Pow10(0);
    }
    assert ValueOf(whole) * 100 + ValueOf(part) == abs;
    RoundOfWhole(if negative then -abs else abs, 100);
  }

  /** What the response prints reads back as what was summed. */
  lemma MoneyRoundTrip(cents: int)
    ensures ToCents(CentsToMoney(cents)) == cents
  {
    hide UnsignedCents, Numeral, Padded;
    var abs := if cents < 0 then -cents else cents;
    var whole, part := Numeral(abs / 100), Padded(abs % 100);
    var text := whole + "." + part;
    UnsignedRoundTrip(abs, cents < 0);
    if cents < 0 {
      assert CentsToMoney(cents) == "-" + text;
      assert ("-" + text)[1..] == text;
    } else {
      assert CentsToMoney(cents) == text;
      assert text[0] == whole[0] && IsDigit(whole[0]);
    }
  }

  // ─── Shares ────────────────────────────────────────────────────────────────────

  /** `shareOf`, in thousandths. */
  function ShareOf(part: int, total: int): int {
    if total == 0 then 0
    else if total > 0 then Round(1000 * part, total)
    else Round(-1000 * part, -total)
  }

  lemma OneShare(part: int, total: int)
    requires total > 0
    ensures -total <= 2 * (total * ShareOf(part, total) - 1000 * part) <= total
  {
    RoundIsNearest(1000 * part, total);
  }

  lemma AddErrors(total: int, s: int, rest: int, part: int, parts: int, n: int)
    requires -total <= 2 * (total * s - 1000 * part) <= total
    requires -(total * n) <= 2 * (total * rest - 1000 * parts) <= total * n
    ensures -(total * (n + 1)) <= 2 * (total * (s + rest) - 1000 * (part + parts)) <= total * (n + 1)
  {
    assert total * (s + rest) == total * s + total * rest;
    assert total * (n + 1) == total + total * n;
  }

  lemma {:induction false} ShareErrors<T>(parts: seq<T>, cents: T -> int, share: T -> int, total: int)
    requires total > 0 && forall p :: p in parts ==> share(p) == ShareOf(cents(p), total)
    ensures -(total * |parts|) <= 2 * (total * SumOf(parts, share) - 1000 * SumOf(parts, cents)) <= total * |parts|
  {
    if parts != [] {
      hide ShareOf;
      ShareErrors(parts[1..], cents, share, total);
      assert parts[0] in parts;
      OneShare(cents(parts[0]), total);
      AddErrors(total, share(parts[0]), SumOf(parts[1..], share), cents(parts[0]), SumOf(parts[1..], cents), |parts[1..]|);
    }
  }

  /** The shares of the parts of a positive total come to 1000 thousandths, give or take half a thousandth a part. */
  lemma SharesAddUp<T>(parts: seq<T>, cents: T -> int, share: T -> int, total: int)
    requires total > 0 && SumOf(parts, cents) == total
    requires forall p :: p in parts ==> share(p) == ShareOf(cents(p), total)
    ensures -|parts| <= 2 * (SumOf(parts, share) - 1000) <= |parts|
  {
    ShareErrors(parts, cents, share, total);
    ErrorPerPart(total, SumOf(parts, share), |parts|);
  }

  lemma ErrorPerPart(total: int, got: int, n: int)
    requires total > 0 && -(total * n) <= 2 * (total * got - 1000 * total) <= total * n
    ensures -n <= 2 * (got - 1000) <= n
  {
    var gap := 2 * (got - 1000);
    assert 2 * (total * got - 1000 * total) == total * gap;
    assert total * -gap == -(total * gap);
    Cancel(total, gap, n);
    Cancel(total, -gap, n);
  }
}
