/** The Python built-ins the back end applies to request data: `str.strip()`, `int()` and
    truthiness. Request bodies are parsed JSON, modelled by Js.Json. */
module Python {
  import opened Common
  import opened Js
  import Money

  /** The characters `str.isspace()` accepts (and `str.strip()` removes). */
  predicate IsPySpace(c: char) {
    c == '\t' || c == '\n' || c == '\U{B}' || c == '\U{C}' || c == '\r'
    || ('\U{1C}' <= c <= '\U{1F}') || c == ' ' || c == '\U{85}' || c == '\U{A0}'
    || c == '\U{1680}' || ('\U{2000}' <= c <= '\U{200A}') || c == '\U{2028}' || c == '\U{2029}'
    || c == '\U{202F}' || c == '\U{205F}' || c == '\U{3000}'
  }

  function StripStart(s: string): (r: string)
    ensures |r| <= |s|
    ensures r != [] ==> !IsPySpace(r[0])
  {
    if s != [] && IsPySpace(s[0]) then StripStart(s[1..]) else s
  }

  function StripEnd(s: string): (r: string)
    ensures |r| <= |s|
    ensures r != [] ==> !IsPySpace(r[|r| - 1])
  {
    if s != [] && IsPySpace(s[|s| - 1]) then StripEnd(s[..|s| - 1]) else s
  }

  /** `s.strip()`. */
  function Strip(s: string): (r: string)
    ensures |r| <= |s|
    ensures r != [] ==> !IsPySpace(r[0]) && !IsPySpace(r[|r| - 1])
  {
    var a := StripStart(s);
    StripEndPrefix(a);
    StripEnd(a)
  }

  /** `StripEnd` keeps a prefix of its argument. */
  lemma {:induction false} StripEndPrefix(s: string)
    ensures StripEnd(s) == s[..|StripEnd(s)|]
  {
    if s != [] && IsPySpace(s[|s| - 1]) {
      StripEndPrefix(s[..|s| - 1]);
    }
  }

  /** Stripping is idempotent. */
  lemma StripIdempotent(s: string)
    ensures Strip(Strip(s)) == Strip(s)
  {
    var r := Strip(s);
    if r != [] {
      assert StripStart(r) == r;
      assert StripEnd(r) == r;
    }
  }

  /** Digits with single underscores between them, as `int()` accepts after the sign. */
  predicate ValidDigitGroups(s: string) {
    |s| >= 1 && IsDigit(s[0]) && IsDigit(s[|s| - 1])
    && (forall i :: 0 <= i < |s| ==> IsDigit(s[i]) || s[i] == '_')
    && NoDoubleUnderscore(s)
  }

  /** No two underscores in a row. */
  predicate NoDoubleUnderscore(s: string) {
    |s| < 2 || (!(s[0] == '_' && s[1] == '_') && NoDoubleUnderscore(s[1..]))
  }

  lemma {:induction false} DigitsHaveNoDoubleUnderscore(d: string)
    requires AllDigits(d)
    ensures NoDoubleUnderscore(d)
  {
    if |d| >= 2 {
      DigitsHaveNoDoubleUnderscore(d[1..]);
    }
  }

  function DropUnderscores(s: string): (r: string)
    requires forall i :: 0 <= i < |s| ==> IsDigit(s[i]) || s[i] == '_'
    ensures AllDigits(r)
  {
    if s == [] then "" else (if s[0] == '_' then "" else [s[0]]) + DropUnderscores(s[1..])
  }

  /** The value of a digit string with underscores. */
  function GroupsValue(s: string): nat
    requires ValidDigitGroups(s)
  {
    DecimalValue(DropUnderscores(s))
  }

  /** `int()` of an already stripped text: an optional sign, then decimal digits optionally
      grouped by single underscores. */
  function ParseSigned(t: string): (r: Option<int>)
  {
    if |t| > 0 && t[0] == '-' then
      (if ValidDigitGroups(t[1..]) then Some(0 - GroupsValue(t[1..])) else None)
    else if |t| > 0 && t[0] == '+' then
      (if ValidDigitGroups(t[1..]) then Some(GroupsValue(t[1..])) else None)
    else if ValidDigitGroups(t) then Some(GroupsValue(t))
    else None
  }

  /** `int(s)` for a string, with surrounding white space allowed; None where Python raises
      ValueError. */
  function ParseInt(s: string): (r: Option<int>)
    ensures r.Some? ==> Strip(s) != ""
  {
    ParseSigned(Strip(s))
  }

  lemma StripNoop(s: string)
    requires s != [] && !IsPySpace(s[0]) && !IsPySpace(s[|s| - 1])
    ensures Strip(s) == s
  {
    assert StripStart(s) == s;
  }

  /** `int(str(n))` reads back every integer. */
  lemma ParseIntOfDecimal(n: int)
    ensures ParseInt(IntToDecimal(n)) == Some(n)
  {
    var m: nat := if n < 0 then -n else n;
    var d := NatToDecimal(m);
    DecimalOfNatToDecimal(m);
    if n < 0 {
      var t := IntToDecimal(n);
      assert t[1..] == d;
      ParseNegative(t);
      var a := DecimalValue(t[1..]);
      assert a == m;
    } else {
      ParsePositive(d);
    }
  }

  /** A digit string reads as its value. */
  lemma ParsePositive(d: string)
    requires |d| >= 1 && AllDigits(d)
    ensures ParseInt(d) == Some(DecimalValue(d))
  {
    NoSpaceInDigits(d);
    StripNoop(d);
    SignedPositive(d);
  }

  /** A minus sign followed by digits reads as the negated value of the digits. */
  lemma ParseNegative(t: string)
    requires |t| >= 2 && t[0] == '-' && AllDigits(t[1..])
    ensures ParseInt(t) == Some(0 - DecimalValue(t[1..]))
  {
    NoSpaceInDigits(t[1..]);
    StripNoop(t);
    SignedNegative(t);
  }

  lemma SignedPositive(d: string)
    requires |d| >= 1 && AllDigits(d)
    ensures ParseSigned(d) == Some(DecimalValue(d))
  {
    NoSpaceInDigits(d);
    DropUnderscoresOfDigits(d);
    assert d[0] != '-' && d[0] != '+';
  }

  lemma SignedNegative(t: string)
    requires |t| >= 2 && t[0] == '-' && AllDigits(t[1..])
    ensures ParseSigned(t) == Some(0 - DecimalValue(t[1..]))
  {
    var d := t[1..];
    NoSpaceInDigits(d);
    DropUnderscoresOfDigits(d);
  }

  lemma NoSpaceInDigits(d: string)
    requires |d| >= 1 && AllDigits(d)
    ensures !IsPySpace(d[0]) && !IsPySpace(d[|d| - 1]) && ValidDigitGroups(d)
  {
    DigitsHaveNoDoubleUnderscore(d);
  }

  lemma {:induction false} DropUnderscoresOfDigits(d: string)
    requires AllDigits(d)
    ensures DropUnderscores(d) == d
  {
    if d != [] {
      DropUnderscoresOfDigits(d[1..]);
    }
  }

  lemma {:induction false} DecimalOfNatToDecimal(n: nat)
    ensures DecimalValue(NatToDecimal(n)) == n
  {
    if n >= 10 {
      DecimalOfNatToDecimal(n / 10);
      var s := NatToDecimal(n);
      assert s[..|s| - 1] == NatToDecimal(n / 10);
    }
  }

  /** What `int(x)` does with a JSON request value. */
  datatype IntConversion = Converted(value: int) | ValueError | TypeError

  function Int(v: Json): (r: IntConversion)
    ensures v.JNum? ==> r == Converted(v.n)
    ensures (v.JNull? || v.JArr? || v.JObj?) ==> r == TypeError
  {
    match v
    case JNum(n) => Converted(n)
    case JBool(b) => Converted(if b then 1 else 0)
    case JStr(s) => (match ParseInt(s) case Some(n) => Converted(n) case None => ValueError)
    case _ => TypeError
  }

  /** Python truthiness of a JSON value; `None` stands for a missing key (`dict.get` gives None). */
  predicate PyTruthy(v: Option<Json>) {
    match v
    case None => false
    case Some(JNull) => false
    case Some(JBool(b)) => b
    case Some(JNum(n)) => n != 0
    case Some(JStr(s)) => s != ""
    case Some(JArr(xs)) => xs != []
    case Some(JObj(fs)) => fs != []
  }

  /** Python `==` between a JSON value and an integer: `False == 0` and `True == 1` hold. */
  predicate EqualsInt(v: Json, k: int) {
    (v.JNum? && v.n == k) || (v.JBool? && (if v.b then 1 else 0) == k)
  }

  /** A scalar JSON value as Python holds it after `json.loads`. */
  datatype Scalar = PyNone | PyStr(s: string) | PyInt(i: int) | PyBool(b: bool)

  /** What a NOT NULL text column stores for a value: its `str()`; None has no text, so the
      row cannot be saved. */
  function ColumnText(v: Scalar): (r: Option<string>)
    ensures r.None? <==> v.PyNone?
    ensures v.PyStr? ==> r == Some(v.s)
    ensures v.PyInt? ==> r == Some(IntToDecimal(v.i))
  {
    match v
    case PyNone => None
    case PyStr(s) => Some(s)
    case PyInt(i) => Some(IntToDecimal(i))
    case PyBool(b) => Some(if b then "True" else "False")
  }

  /** `d.get(key, default)`, where None stands for a missing key: the default only when
      the key is missing, so a key holding null yields Python's None. */
  function Get(v: Option<Scalar>, fallback: Scalar): (r: Scalar)
    ensures v.None? ==> r == fallback
    ensures v.Some? ==> r == v.value
  {
    if v.Some? then v.value else fallback
  }

  /** Python truthiness of a scalar. */
  predicate ScalarTruthy(v: Scalar) {
    match v
    case PyNone => false
    case PyStr(s) => s != ""
    case PyInt(i) => i != 0
    case PyBool(b) => b
  }

  /** Python `==` between a scalar and an integer: `False == 0` and `True == 1` hold. */
  predicate ScalarEqualsInt(v: Scalar, k: int) {
    (v.PyInt? && v.i == k) || (v.PyBool? && (if v.b then 1 else 0) == k)
  }

  /** `int(d)` of a two-place decimal held as cents: the fraction is dropped, toward zero. */
  function TruncateCents(cents: int): (r: int)
    ensures cents >= 0 ==> 0 <= r && r * 100 <= cents < r * 100 + 100
    ensures cents < 0 ==> r <= 0 && r * 100 - 100 < cents <= r * 100
  {
    if cents >= 0 then cents / 100 else -((-cents) / 100)
  }

  /** `str()` of a Decimal with two places, for an amount held in cents: "150.00", "-0.50". */
  function CentsText(cents: int): (r: string)
    ensures |r| >= 4 && r[|r| - 3] == '.'
    ensures (cents < 0) <==> r[0] == '-'
  {
    var m := if cents < 0 then -cents else cents;
    (if cents < 0 then "-" else "") + NatToDecimal(m / 100) + "." + [DigitChar(m % 100 / 10), DigitChar(m % 10)]
  }

  /** Reading a two-place decimal text back into cents; None for any other text. */
  function ParseCents(s: string): (r: Option<int>) {
    if |s| > 0 && s[0] == '-' then
      (match UnsignedCents(s[1..]) case Some(v) => Some(0 - v) case None => None)
    else UnsignedCents(s)
  }

  /** Digits, a point and two digits, read as cents. */
  function UnsignedCents(t: string): (r: Option<int>) {
    if |t| < 4 || t[|t| - 3] != '.' || !AllDigits(t[..|t| - 3]) || !AllDigits(t[|t| - 2..]) then None
    else Some(100 * DecimalValue(t[..|t| - 3]) + DecimalValue(t[|t| - 2..]))
  }

  /** The text carries the whole amount: reading it back gives the cents it was made from. */
  lemma CentsTextRoundTrip(cents: int)
    ensures ParseCents(CentsText(cents)) == Some(cents)
  {
    var m := if cents < 0 then -cents else cents;
    var t := NatToDecimal(m / 100) + "." + [DigitChar(m % 100 / 10), DigitChar(m % 10)];
    UnsignedCentsText(m);
    var s := CentsText(cents);
    if cents < 0 {
      assert s == "-" + t;
      assert s[1..] == t;
    } else {
      assert s == t;
      assert t[0] != '-';
    }
  }

  /** The unsigned text of an amount reads back as that amount. */
  lemma UnsignedCentsText(m: nat)
    ensures UnsignedCents(NatToDecimal(m / 100) + "." + [DigitChar(m % 100 / 10), DigitChar(m % 10)]) == Some(m)
  {
    var q, r := m / 100, m % 100;
    var a, b := r / 10, r % 10;
    assert m == 100 * q + r && r == 10 * a + b;
    Money.ModOf(m, 10 * q + a, b, 10);
    UnsignedCentsParts(q, a, b);
  }

  lemma UnsignedCentsParts(q: nat, a: nat, b: nat)
    requires a < 10 && b < 10
    ensures UnsignedCents(NatToDecimal(q) + "." + [DigitChar(a), DigitChar(b)]) == Some(100 * q + 10 * a + b)
  {
    var whole := NatToDecimal(q);
    var frac := [DigitChar(a), DigitChar(b)];
    var t := whole + "." + frac;
    assert t[..|t| - 3] == whole;
    assert t[|t| - 2..] == frac;
    DecimalOfNatToDecimal(q);
    TwoDigitValue(a, b);
  }

  lemma TwoDigitValue(a: nat, b: nat)
    requires a < 10 && b < 10
    ensures AllDigits([DigitChar(a), DigitChar(b)])
    ensures DecimalValue([DigitChar(a), DigitChar(b)]) == 10 * a + b
  {
    var x, y := DigitChar(a), DigitChar(b);
    var f := [x, y];
    assert f[..1] == [x] && [x][..0] == [];
    assert DecimalValue([x]) == a;
    assert DecimalValue(f) == 10 * DecimalValue([x]) + b;
  }
}
