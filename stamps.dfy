/** Calendar stamps (`strftime('%Y%m%d')` and `strftime('%Y%m%d%H%M%S')`) and the reference
    numbers built from a stamp and the first six hex digits of a random UUID:
    sale numbers, stock-count numbers, payment and refund references. The clock reading and
    the UUID are parameters. */
module Stamps {
  import opened Common

  /** A civil date and time as the clock reports it. */
  datatype DateTime = DateTime(year: int, month: int, day: int, hour: int, minute: int, second: int)

  predicate IsLeap(y: int) {
    y % 4 == 0 && (y % 100 != 0 || y % 400 == 0)
  }

  function DaysInMonth(y: int, m: int): int
    requires 1 <= m <= 12
  {
    if m == 2 then (if IsLeap(y) then 29 else 28)
    else if m == 4 || m == 6 || m == 9 || m == 11 then 30
    else 31
  }

  /** A reading the clock can give, in the four-digit years `%Y` spells with four digits. */
  predicate ValidDateTime(t: DateTime) {
    1000 <= t.year <= 9999 && 1 <= t.month <= 12 && 1 <= t.day <= DaysInMonth(t.year, t.month)
    && 0 <= t.hour < 24 && 0 <= t.minute < 60 && 0 <= t.second < 60
  }

  function Pow10(w: nat): (p: nat)
    ensures p >= 1
  {
    if w == 0 then 1 else 10 * Pow10(w - 1)
  }

  /** n written with exactly w decimal digits, zero-padded on the left (the low w digits). */
  function Digits(n: nat, w: nat): (r: string)
    ensures |r| == w && AllDigits(r)
  {
    if w == 0 then "" else Digits(n / 10, w - 1) + [DigitChar(n % 10)]
  }

  /** Zero-padding loses nothing for a number that fits in the width. */
  lemma {:induction false} DigitsRoundTrip(n: nat, w: nat)
    requires n < Pow10(w)
    ensures DecimalValue(Digits(n, w)) == n
  {
    if w > 0 {
      DigitsRoundTrip(n / 10, w - 1);
      var r := Digits(n, w);
      assert r[..|r| - 1] == Digits(n / 10, w - 1);
    }
  }

  /** `strftime('%Y%m%d')`. */
  function DateStamp(t: DateTime): (r: string)
    requires ValidDateTime(t)
    ensures |r| == 8 && AllDigits(r)
  {
    Digits(t.year, 4) + Digits(t.month, 2) + Digits(t.day, 2)
  }

  /** `strftime('%Y%m%d%H%M%S')`. */
  function DateTimeStamp(t: DateTime): (r: string)
    requires ValidDateTime(t)
    ensures |r| == 14 && AllDigits(r)
    ensures r[..8] == DateStamp(t)
  {
    DateStamp(t) + Digits(t.hour, 2) + Digits(t.minute, 2) + Digits(t.second, 2)
  }

  /** The digits of a stamp give back the fields of the time they were made from. */
  lemma DateTimeStampInjective(t1: DateTime, t2: DateTime)
    requires ValidDateTime(t1) && ValidDateTime(t2)
    requires DateTimeStamp(t1) == DateTimeStamp(t2)
    ensures t1 == t2
  {
    StampFields(t1);
    StampFields(t2);
  }

  /** Each field of a time can be read back from its place in the stamp. */
  lemma StampFields(t: DateTime)
    requires ValidDateTime(t)
    ensures var s := DateTimeStamp(t);
      DecimalValue(s[0..4]) == t.year && DecimalValue(s[4..6]) == t.month && DecimalValue(s[6..8]) == t.day
      && DecimalValue(s[8..10]) == t.hour && DecimalValue(s[10..12]) == t.minute && DecimalValue(s[12..14]) == t.second
  {
    var y, mo, d := Digits(t.year, 4), Digits(t.month, 2), Digits(t.day, 2);
    var h, mi, se := Digits(t.hour, 2), Digits(t.minute, 2), Digits(t.second, 2);
    var s := y + mo + d + h + mi + se;
    assert s == DateTimeStamp(t);
    assert DecimalValue(s[0..4]) == t.year by { assert s[0..4] == y; FieldBack(t.year, 4, s, 0); }
    assert DecimalValue(s[4..6]) == t.month by { assert s[4..6] == mo; FieldBack(t.month, 2, s, 4); }
    assert DecimalValue(s[6..8]) == t.day by { assert s[6..8] == d; FieldBack(t.day, 2, s, 6); }
    assert DecimalValue(s[8..10]) == t.hour by { assert s[8..10] == h; FieldBack(t.hour, 2, s, 8); }
    assert DecimalValue(s[10..12]) == t.minute by { assert s[10..12] == mi; FieldBack(t.minute, 2, s, 10); }
    assert DecimalValue(s[12..14]) == t.second by { assert s[12..14] == se; FieldBack(t.second, 2, s, 12); }
  }

  lemma FieldBack(n: nat, w: nat, s: string, at: nat)
    requires n < Pow10(w) && at + w <= |s|
    requires s[at..at + w] == Digits(n, w)
    ensures AllDigits(s[at..at + w]) && DecimalValue(s[at..at + w]) == n
  {
    DigitsRoundTrip(n, w);
  }

  predicate IsLowerHex(c: char) {
    ('0' <= c <= '9') || ('a' <= c <= 'f')
  }

  predicate IsUpperHex(c: char) {
    ('0' <= c <= '9') || ('A' <= c <= 'F')
  }

  /** What `uuid.uuid4().hex` returns: 32 lower-case hexadecimal digits. */
  predicate UuidHex(h: string) {
    |h| == 32 && forall i :: 0 <= i < |h| ==> IsLowerHex(h[i])
  }

  function UpperChar(c: char): char {
    if 'a' <= c <= 'z' then (c as int - 32) as char else c
  }

  /** `uuid.uuid4().hex[:6].upper()`. */
  function Suffix(h: string): (r: string)
    requires UuidHex(h)
    ensures |r| == 6 && forall i :: 0 <= i < 6 ==> IsUpperHex(r[i])
  {
    seq(6, i requires 0 <= i < 6 => UpperChar(h[i]))
  }

  /** Upper-casing the six hex digits loses nothing. */
  lemma SuffixInjective(h1: string, h2: string)
    requires UuidHex(h1) && UuidHex(h2) && Suffix(h1) == Suffix(h2)
    ensures h1[..6] == h2[..6]
  {
    forall i | 0 <= i < 6 ensures h1[i] == h2[i] {
      assert Suffix(h1)[i] == Suffix(h2)[i];
    }
  }

  /** "<prefix>-<stamp>-<suffix>". */
  function Reference(prefix: string, stamp: string, h: string): (r: string)
    requires UuidHex(h)
    ensures |r| == |prefix| + |stamp| + 8
    ensures StartsWith(r, prefix + "-")
    ensures r[|prefix| + 1..|prefix| + 1 + |stamp|] == stamp && r[|prefix| + 1 + |stamp|] == '-'
    ensures r[|r| - 6..] == Suffix(h)
  {
    var r := prefix + "-" + stamp + "-" + Suffix(h);
    assert r[..|prefix| + 1] == prefix + "-";
    r
  }

  /** Sale numbers "SALE-yyyymmdd-XXXXXX". */
  function SaleNumber(t: DateTime, h: string): (r: string)
    requires ValidDateTime(t) && UuidHex(h)
    ensures |r| == 20 && StartsWith(r, "SALE-") && r[5..13] == DateStamp(t)
  {
    Reference("SALE", DateStamp(t), h)
  }

  /** Stock-count numbers "COUNT-yyyymmdd-XXXXXX". */
  function CountNumber(t: DateTime, h: string): (r: string)
    requires ValidDateTime(t) && UuidHex(h)
    ensures |r| == 21 && StartsWith(r, "COUNT-") && r[6..14] == DateStamp(t)
  {
    Reference("COUNT", DateStamp(t), h)
  }

  /** The references of payments ("PAY") and refunds ("REF"):
      "<prefix>-yyyymmddHHMMSS-XXXXXX". */
  function TimedReference(prefix: string, t: DateTime, h: string): (r: string)
    requires ValidDateTime(t) && UuidHex(h)
    ensures |r| == |prefix| + 22 && StartsWith(r, prefix + "-")
    ensures r[|prefix| + 1..|prefix| + 15] == DateTimeStamp(t) && r[|prefix| + 15] == '-'
    ensures forall i :: |prefix| + 16 <= i < |r| ==> IsUpperHex(r[i])
  {
    Reference(prefix, DateTimeStamp(t), h)
  }

  /** Two timed references are equal only when they have the same prefix and were made in the
      same second from UUIDs that agree in their first six hex digits: prefix, clock and UUID
      are all recoverable, so a payment reference is never a refund reference. */
  lemma TimedReferenceInjective(p1: string, t1: DateTime, h1: string, p2: string, t2: DateTime, h2: string)
    requires ValidDateTime(t1) && UuidHex(h1) && ValidDateTime(t2) && UuidHex(h2)
    requires TimedReference(p1, t1, h1) == TimedReference(p2, t2, h2)
    ensures p1 == p2 && t1 == t2 && h1[..6] == h2[..6]
  {
    var r := TimedReference(p1, t1, h1);
    var n := |p1|;
    assert p1 == r[..n] == p2;
    assert DateTimeStamp(t1) == r[n + 1..n + 15] == DateTimeStamp(t2);
    DateTimeStampInjective(t1, t2);
    assert Suffix(h1) == r[n + 16..] == Suffix(h2);
    SuffixInjective(h1, h2);
  }
}
