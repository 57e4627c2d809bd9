/** The JavaScript values the front end receives from the API (parsed JSON) and the few
    language operations its decision logic uses on them: truthiness, property access,
    `Object.keys`/`Object.values`, template-literal conversion to a string, `JSON.stringify`,
    `String.prototype.trim`, the regular-expression class `\s` and UTF-16 string length. */
module Js {
  import opened Common

  /** A parsed JSON value. Object members keep their order; a JavaScript object never holds
      the same key twice. Numbers are integers in this model. */
  datatype Json =
    | JNull
    | JBool(b: bool)
    | JNum(n: int)
    | JStr(s: string)
    | JArr(elems: seq<Json>)
    | JObj(fields: seq<(string, Json)>)

  /** JavaScript truthiness; `None` stands for `undefined`. */
  predicate Truthy(v: Option<Json>) {
    match v
    case None => false
    case Some(JNull) => false
    case Some(JBool(b)) => b
    case Some(JNum(n)) => n != 0
    case Some(JStr(s)) => s != ""
    case Some(JArr(_)) => true
    case Some(JObj(_)) => true
  }

  /** `a || b` on possibly-undefined values: the first operand when it is truthy. */
  function Or(a: Option<Json>, b: Option<Json>): (r: Option<Json>)
    ensures Truthy(a) ==> r == a
    ensures !Truthy(a) ==> r == b
  {
    if Truthy(a) then a else b
  }

  /** The member named `key` of an object's member list. */
  function Member(fields: seq<(string, Json)>, key: string): (r: Option<Json>)
    ensures r.Some? ==> exists i :: 0 <= i < |fields| && fields[i] == (key, r.value)
    ensures r.None? ==> forall i :: 0 <= i < |fields| ==> fields[i].0 != key
  {
    if fields == [] then None
    else if fields[0].0 == key then Some(fields[0].1)
    else Member(fields[1..], key)
  }

  /** The member named `key` is the first field carrying that name. */
  lemma {:induction false} MemberAt(fields: seq<(string, Json)>, i: nat, key: string)
    requires i < |fields| && fields[i].0 == key
    requires forall j :: 0 <= j < i ==> fields[j].0 != key
    ensures Member(fields, key) == Some(fields[i].1)
  {
    if i > 0 {
      MemberAt(fields[1..], i - 1, key);
    }
  }

  /** The decimal spelling of a natural number, without leading zeros. */
  function NatToDecimal(n: nat): (r: string)
    ensures |r| >= 1
    ensures AllDigits(r)
    ensures |r| > 1 ==> r[0] != '0'
    decreases n
  {
    if n < 10 then [DigitChar(n)] else NatToDecimal(n / 10) + [DigitChar(n % 10)]
  }

  /** JavaScript's conversion of an integer number to a string. */
  function IntToDecimal(n: int): string {
    if n < 0 then "-" + NatToDecimal(-n) else NatToDecimal(n)
  }

  /** The array index a property key denotes, if it is a canonical index ("0", "1", "12", ...). */
  function IndexKey(key: string): (r: Option<nat>)
    ensures r.Some? ==> NatToDecimal(r.value) == key
  {
    if |key| == 0 || (|key| > 1 && key[0] == '0') then None
    else if AllDigits(key) then
      var n := DecimalValue(key);
      DecimalRoundTrip(key);
      Some(n)
    else None
  }

  lemma {:induction false} DecimalRoundTrip(s: string)
    requires |s| >= 1 && (|s| > 1 ==> s[0] != '0')
    requires AllDigits(s)
    ensures NatToDecimal(DecimalValue(s)) == s
  {
    var init := s[..|s| - 1];
    var last := s[|s| - 1] as int - '0' as int;
    assert DigitChar(last) == s[|s| - 1];
    if |s| == 1 {
    } else {
      DecimalRoundTrip(init);
      var m := DecimalValue(init);
      assert init[0] == s[0] && NatToDecimal(0)[0] == '0';
      assert m >= 1;
      assert DecimalValue(s) == 10 * m + last;
      assert (10 * m + last) / 10 == m && (10 * m + last) % 10 == last;
      assert s == init + [s[|s| - 1]];
    }
  }

  /** `v[key]`, `v.key` and `v?.key`: property access; `None` on either side is `undefined`.
      Arrays and strings answer to their canonical index keys, objects to their member names. */
  function Prop(v: Option<Json>, key: string): Option<Json> {
    match v
    case Some(JObj(fs)) => Member(fs, key)
    case Some(JArr(xs)) =>
      (match IndexKey(key)
       case Some(i) => if i < |xs| then Some(xs[i]) else None
       case None => None)
    case Some(JStr(s)) =>
      (match IndexKey(key)
       case Some(i) => if i < |s| then Some(JStr([s[i]])) else None
       case None => None)
    case _ => None
  }

  /** `Object.keys(v)` for a value that is not null or undefined. */
  function Keys(v: Json): (r: seq<string>)
    ensures v.JObj? ==> |r| == |v.fields| && forall i :: 0 <= i < |r| ==> r[i] == v.fields[i].0
  {
    match v
    case JObj(fs) => seq(|fs|, i requires 0 <= i < |fs| => fs[i].0)
    case JArr(xs) => seq(|xs|, i requires 0 <= i => NatToDecimal(i))
    case JStr(s) => seq(|s|, i requires 0 <= i => NatToDecimal(i))
    case _ => []
  }

  /** `Object.values(v)` for a value that is not null or undefined. */
  function Values(v: Json): (r: seq<Json>)
    ensures v.JObj? ==> |r| == |v.fields| && forall i :: 0 <= i < |r| ==> r[i] == v.fields[i].1
  {
    match v
    case JObj(fs) => seq(|fs|, i requires 0 <= i < |fs| => fs[i].1)
    case JArr(xs) => xs
    case JStr(s) => seq(|s|, i requires 0 <= i < |s| => JStr([s[i]]))
    case _ => []
  }

  /** `Array.isArray(v)`. */
  predicate IsArray(v: Option<Json>) {
    v.Some? && v.value.JArr?
  }

  /** The string a template literal `${v}` makes of a value (`String(v)`). */
  function ToStr(v: Json): string
    decreases v, 1
  {
    match v
    case JNull => "null"
    case JBool(b) => if b then "true" else "false"
    case JNum(n) => IntToDecimal(n)
    case JStr(s) => s
    case JArr(xs) => JoinElems(v, 0)
    case JObj(_) => "[object Object]"
  }

  /** `Array.prototype.join(",")` on the elements of `arr` from index i on; null elements
      become the empty string. */
  function JoinElems(arr: Json, i: nat): string
    requires arr.JArr? && i <= |arr.elems|
    decreases arr, 0, |arr.elems| - i
  {
    if i == |arr.elems| then ""
    else
      var x := arr.elems[i];
      var piece := if x.JNull? then "" else ToStr(x);
      (if i == 0 then "" else ",") + piece + JoinElems(arr, i + 1)
  }

  function HexDigitLower(d: nat): char
    requires d < 16
  {
    "0123456789abcdef"[d]
  }

  /** The JSON escape of one character inside a string literal. */
  function EscapeChar(c: char): (r: string)
    ensures |r| >= 1
    ensures c != '"' && c != '\\' && c as int >= 0x20 ==> r == [c]
  {
    if c == '"' then "\\\""
    else if c == '\\' then "\\\\"
    else if c == '\U{8}' then "\\b"
    else if c == '\U{C}' then "\\f"
    else if c == '\n' then "\\n"
    else if c == '\r' then "\\r"
    else if c == '\t' then "\\t"
    else if c as int < 0x20 then "\\u00" + [HexDigitLower(c as int / 16), HexDigitLower(c as int % 16)]
    else [c]
  }

  function EscapeString(s: string): string {
    if s == [] then "" else EscapeChar(s[0]) + EscapeString(s[1..])
  }

  /** A JSON string literal. */
  function Quote(s: string): (r: string)
    ensures |r| >= 2 && r[0] == '"' && r[|r| - 1] == '"'
  {
    "\"" + EscapeString(s) + "\""
  }

  /** `JSON.stringify(v)`. */
  function Stringify(v: Json): (r: string)
    ensures |r| >= 1
    decreases v, 1
  {
    match v
    case JNull => "null"
    case JBool(b) => if b then "true" else "false"
    case JNum(n) => IntToDecimal(n)
    case JStr(s) => Quote(s)
    case JArr(_) => "[" + StringifyElems(v, 0) + "]"
    case JObj(_) => "{" + StringifyMembers(v, 0) + "}"
  }

  function StringifyElems(arr: Json, i: nat): string
    requires arr.JArr? && i <= |arr.elems|
    decreases arr, 0, |arr.elems| - i
  {
    if i == |arr.elems| then ""
    else (if i == 0 then "" else ",") + Stringify(arr.elems[i]) + StringifyElems(arr, i + 1)
  }

  function StringifyMembers(obj: Json, i: nat): string
    requires obj.JObj? && i <= |obj.fields|
    decreases obj, 0, |obj.fields| - i
  {
    if i == |obj.fields| then ""
    else
      var m := obj.fields[i];
      assert m in obj.fields;
      (if i == 0 then "" else ",") + Quote(m.0) + ":" + Stringify(m.1) + StringifyMembers(obj, i + 1)
  }

  /** The characters JavaScript treats as white space in `trim` and in the regular-expression
      class `\s`: WhiteSpace and LineTerminator of the ECMAScript grammar. */
  predicate IsSpace(c: char) {
    c == '\t' || c == '\n' || c == '\U{B}' || c == '\U{C}' || c == '\r' || c == ' '
    || c == '\U{A0}' || c == '\U{1680}' || ('\U{2000}' <= c <= '\U{200A}')
    || c == '\U{2028}' || c == '\U{2029}' || c == '\U{202F}' || c == '\U{205F}'
    || c == '\U{3000}' || c == '\U{FEFF}'
  }

  function TrimStart(s: string): (r: string)
    ensures |r| <= |s|
    ensures r != [] ==> !IsSpace(r[0])
  {
    if s != [] && IsSpace(s[0]) then TrimStart(s[1..]) else s
  }

  /** `TrimStart` drops a prefix made of white space only. */
  lemma {:induction false} TrimStartDrops(s: string)
    ensures TrimStart(s) == s[|s| - |TrimStart(s)|..]
    ensures forall i :: 0 <= i < |s| - |TrimStart(s)| ==> IsSpace(s[i])
  {
    if s != [] && IsSpace(s[0]) {
      TrimStartDrops(s[1..]);
      forall i | 1 <= i < |s| - |TrimStart(s)| ensures IsSpace(s[i]) {
        assert s[i] == s[1..][i - 1];
      }
    }
  }

  function TrimEnd(s: string): (r: string)
    ensures |r| <= |s|
    ensures r != [] ==> !IsSpace(r[|r| - 1])
  {
    if s != [] && IsSpace(s[|s| - 1]) then TrimEnd(s[..|s| - 1]) else s
  }

  /** `TrimEnd` drops a suffix made of white space only. */
  lemma {:induction false} TrimEndDrops(s: string)
    ensures TrimEnd(s) == s[..|TrimEnd(s)|]
    ensures forall i :: |TrimEnd(s)| <= i < |s| ==> IsSpace(s[i])
  {
    if s != [] && IsSpace(s[|s| - 1]) {
      TrimEndDrops(s[..|s| - 1]);
      forall i | |TrimEnd(s)| <= i < |s| - 1 ensures IsSpace(s[i]) {
        assert s[i] == s[..|s| - 1][i];
      }
    }
  }

  predicate AllSpaces(s: string) {
    forall i :: 0 <= i < |s| ==> IsSpace(s[i])
  }

  /** `String.prototype.trim`. */
  function Trim(s: string): (r: string)
    ensures |r| <= |s|
    ensures r != [] ==> !IsSpace(r[0]) && !IsSpace(r[|r| - 1])
    ensures r == [] <==> AllSpaces(s)
  {
    var a := TrimStart(s);
    var r := TrimEnd(a);
    var k := |s| - |a|;
    TrimStartDrops(s);
    TrimEndDrops(a);
    assert AllSpaces(s) <==> r == [] by {
      if r == [] {
        assert AllSpaces(a);
        forall i | k <= i < |s| ensures IsSpace(s[i]) { assert s[i] == a[i - k]; }
      } else {
        assert r[0] == a[0] == s[k];
      }
    }
    r
  }

  /** `s.replace(/\s/g, '')`. */
  function RemoveSpaces(s: string): (r: string)
    ensures |r| <= |s|
    ensures forall i :: 0 <= i < |r| ==> !IsSpace(r[i])
    ensures forall i :: 0 <= i < |s| && !IsSpace(s[i]) ==> s[i] in r
  {
    if s == [] then ""
    else if IsSpace(s[0]) then RemoveSpaces(s[1..])
    else [s[0]] + RemoveSpaces(s[1..])
  }

  /** JavaScript's `s.length`: the number of UTF-16 code units, two for a character outside
      the Basic Multilingual Plane. */
  function Utf16Length(s: string): (n: nat)
    ensures |s| <= n <= 2 * |s|
  {
    if s == [] then 0 else (if s[0] as int >= 0x10000 then 2 else 1) + Utf16Length(s[1..])
  }

  /** The longest prefix of s that fits in n UTF-16 code units: what an input with
      `maxLength = n` keeps of its text. */
  function TakeUtf16(s: string, n: nat): (r: string)
    ensures Utf16Length(r) <= n
    ensures StartsWith(s, r)
  {
    if s == [] then ""
    else
      var w := if s[0] as int >= 0x10000 then 2 else 1;
      if w > n then "" else [s[0]] + TakeUtf16(s[1..], n - w)
  }

  /** A text of characters from the Basic Multilingual Plane has one UTF-16 unit per
      character. */
  predicate InBmp(s: string) {
    forall i :: 0 <= i < |s| ==> s[i] as int < 0x10000
  }

  lemma {:induction false} BmpLength(s: string)
    requires InBmp(s)
    ensures Utf16Length(s) == |s|
  {
    if s != [] {
      BmpLength(s[1..]);
    }
  }

  lemma {:induction false} BmpTake(s: string, n: nat)
    requires InBmp(s)
    ensures TakeUtf16(s, n) == s[..if n < |s| then n else |s|]
  {
    if s != [] && n > 0 {
      BmpTake(s[1..], n - 1);
      assert [s[0]] + s[1..][..if n - 1 < |s| - 1 then n - 1 else |s| - 1] == s[..if n < |s| then n else |s|];
    }
  }
}
