/** UTF-8 encoding of strings and the base 64 encoding of section 4 of RFC 4648 (standard
    alphabet, '=' padding), as Python's `str.encode()` and `base64.b64encode` compute them.
    Bytes are integers in 0..255. */
module Base64 {
  import opened Common

  predicate IsByte(x: int) {
    0 <= x < 256
  }

  predicate AllBytes(b: seq<int>) {
    forall i :: 0 <= i < |b| ==> IsByte(b[i])
  }

  /** The UTF-8 bytes of one Unicode scalar value. */
  function Utf8Char(c: char): (r: seq<int>)
    ensures 1 <= |r| <= 4 && AllBytes(r)
    ensures (c as int) < 0x80 <==> |r| == 1
    ensures (c as int) < 0x80 ==> r == [c as int]
  {
    var n := c as int;
    if n < 0x80 then [n]
    else if n < 0x800 then [0xC0 + n / 64, 0x80 + n % 64]
    else if n < 0x10000 then [0xE0 + n / 4096, 0x80 + (n / 64) % 64, 0x80 + n % 64]
    else [0xF0 + n / 262144, 0x80 + (n / 4096) % 64, 0x80 + (n / 64) % 64, 0x80 + n % 64]
  }

  /** `s.encode()`: UTF-8. */
  function Utf8(s: string): (r: seq<int>)
    ensures |s| <= |r| <= 4 * |s| && AllBytes(r)
  {
    if s == [] then [] else Utf8Char(s[0]) + Utf8(s[1..])
  }

  /** An ASCII string encodes to its own character codes, one byte each. */
  lemma {:induction false} Utf8Ascii(s: string)
    requires forall i :: 0 <= i < |s| ==> (s[i] as int) < 0x80
    ensures |Utf8(s)| == |s|
    ensures forall i :: 0 <= i < |s| ==> Utf8(s)[i] == s[i] as int
  {
    if s != [] {
      Utf8Ascii(s[1..]);
    }
  }

  /** The alphabet of Table 1 in RFC 4648. */
  function Alphabet(v: int): (c: char)
    requires 0 <= v < 64
  {
    if v < 26 then ('A' as int + v) as char
    else if v < 52 then ('a' as int + (v - 26)) as char
    else if v < 62 then ('0' as int + (v - 52)) as char
    else if v == 62 then '+'
    else '/'
  }

  /** The value a character of the alphabet stands for. */
  function AlphabetIndex(c: char): (r: int)
    ensures -1 <= r < 64
  {
    if 'A' <= c <= 'Z' then c as int - 'A' as int
    else if 'a' <= c <= 'z' then c as int - 'a' as int + 26
    else if '0' <= c <= '9' then c as int - '0' as int + 52
    else if c == '+' then 62
    else if c == '/' then 63
    else -1
  }

  lemma AlphabetIndexOf(v: int)
    requires 0 <= v < 64
    ensures AlphabetIndex(Alphabet(v)) == v
  {
  }

  /** The four characters of a full three-byte group: its 24 bits cut into four sextets. */
  function EncodeGroup(a: int, b: int, c: int): (r: string)
    requires IsByte(a) && IsByte(b) && IsByte(c)
    ensures |r| == 4
  {
    [Alphabet(a / 4), Alphabet((a % 4) * 16 + b / 16), Alphabet((b % 16) * 4 + c / 64), Alphabet(c % 64)]
  }

  /** `base64.b64encode(b)`: full groups, then a last group of one or two bytes padded with
      zero bits and '=' characters. */
  function Encode(b: seq<int>): (r: string)
    requires AllBytes(b)
    ensures |r| % 4 == 0 && (|r| == 0 <==> |b| == 0)
    decreases |b|
  {
    if |b| == 0 then ""
    else if |b| == 1 then [Alphabet(b[0] / 4), Alphabet((b[0] % 4) * 16), '=', '=']
    else if |b| == 2 then
      [Alphabet(b[0] / 4), Alphabet((b[0] % 4) * 16 + b[1] / 16), Alphabet((b[1] % 16) * 4), '=']
    else
      var rest := b[3..];
      BytesTail(b, 3);
      var tail := Encode(rest);
      assert |tail| % 4 == 0;
      EncodeGroup(b[0], b[1], b[2]) + tail
  }

  lemma BytesTail(b: seq<int>, k: nat)
    requires AllBytes(b) && k <= |b|
    ensures AllBytes(b[k..])
  {
    forall i | 0 <= i < |b| - k ensures IsByte(b[k..][i]) {
      assert b[k..][i] == b[k + i];
    }
  }

  /** Every started group of three bytes takes four characters. */
  lemma {:induction false} EncodedLength(b: seq<int>)
    requires AllBytes(b)
    ensures |Encode(b)| == 4 * ((|b| + 2) / 3)
    decreases |b|
  {
    if |b| >= 3 {
      var rest := b[3..];
      EncodedLength(rest);
      EncodeSplit(b);
      assert (|b| + 2) / 3 == (|rest| + 2) / 3 + 1;
    }
  }

  predicate InAlphabet(c: char) {
    AlphabetIndex(c) >= 0
  }

  /** The three bytes four sextets carry. */
  function DecodeGroup(v0: int, v1: int, v2: int, v3: int): seq<int> {
    [v0 * 4 + v1 / 16, (v1 % 16) * 16 + v2 / 4, (v2 % 4) * 64 + v3]
  }

  /** Decoding of a padded base 64 text; None when the text is malformed. */
  function Decode(s: string): (r: Option<seq<int>>)
    decreases |s|
  {
    if |s| == 0 then Some([])
    else if |s| < 4 || |s| % 4 != 0 then None
    else if !(InAlphabet(s[0]) && InAlphabet(s[1])) then None
    else if |s| == 4 && s[2] == '=' && s[3] == '=' then
      Some(DecodeGroup(AlphabetIndex(s[0]), AlphabetIndex(s[1]), 0, 0)[..1])
    else if !InAlphabet(s[2]) then None
    else if |s| == 4 && s[3] == '=' then
      Some(DecodeGroup(AlphabetIndex(s[0]), AlphabetIndex(s[1]), AlphabetIndex(s[2]), 0)[..2])
    else if !InAlphabet(s[3]) then None
    else
      var g := DecodeGroup(AlphabetIndex(s[0]), AlphabetIndex(s[1]), AlphabetIndex(s[2]), AlphabetIndex(s[3]));
      match Decode(s[4..])
      case None => None
      case Some(rest) => Some(g + rest)
  }

  lemma GroupRoundTrip(a: int, b: int, c: int)
    requires IsByte(a) && IsByte(b) && IsByte(c)
    ensures DecodeGroup(a / 4, (a % 4) * 16 + b / 16, (b % 16) * 4 + c / 64, c % 64) == [a, b, c]
  {
  }

  lemma DecodeEncodeOne(x: int)
    requires IsByte(x)
    ensures Decode(Encode([x])) == Some([x])
  {
    var e := Encode([x]);
    assert e == [Alphabet(x / 4), Alphabet((x % 4) * 16), '=', '='];
    AlphabetIndexOf(x / 4);
    AlphabetIndexOf((x % 4) * 16);
    GroupRoundTrip(x, 0, 0);
    assert AlphabetIndex(e[0]) == x / 4 && AlphabetIndex(e[1]) == (x % 4) * 16;
    assert Decode(e) == Some(DecodeGroup(AlphabetIndex(e[0]), AlphabetIndex(e[1]), 0, 0)[..1]);
    assert DecodeGroup(x / 4, (x % 4) * 16, 0, 0)[..1] == [x];
  }

  lemma DecodeEncodeTwo(x: int, y: int)
    requires IsByte(x) && IsByte(y)
    ensures Decode(Encode([x, y])) == Some([x, y])
  {
    var e := Encode([x, y]);
    assert e == [Alphabet(x / 4), Alphabet((x % 4) * 16 + y / 16), Alphabet((y % 16) * 4), '='];
    AlphabetIndexOf(x / 4);
    AlphabetIndexOf((x % 4) * 16 + y / 16);
    AlphabetIndexOf((y % 16) * 4);
    GroupRoundTrip(x, y, 0);
    assert AlphabetIndex(e[0]) == x / 4 && AlphabetIndex(e[1]) == (x % 4) * 16 + y / 16;
    assert AlphabetIndex(e[2]) == (y % 16) * 4;
    assert Decode(e) == Some(DecodeGroup(AlphabetIndex(e[0]), AlphabetIndex(e[1]), AlphabetIndex(e[2]), 0)[..2]);
    assert DecodeGroup(x / 4, (x % 4) * 16 + y / 16, (y % 16) * 4, 0)[..2] == [x, y];
  }

  lemma EncodeSplit(b: seq<int>)
    requires |b| >= 3 && AllBytes(b)
    ensures Encode(b) == EncodeGroup(b[0], b[1], b[2]) + Encode(b[3..])
  {
  }

  /** The four characters of a full group are in the alphabet and decode to its bytes. */
  lemma GroupDecodes(x: int, y: int, z: int, e: string)
    requires IsByte(x) && IsByte(y) && IsByte(z) && |e| >= 4 && e[..4] == EncodeGroup(x, y, z)
    ensures InAlphabet(e[0]) && InAlphabet(e[1]) && InAlphabet(e[2]) && InAlphabet(e[3])
    ensures DecodeGroup(AlphabetIndex(e[0]), AlphabetIndex(e[1]), AlphabetIndex(e[2]), AlphabetIndex(e[3])) == [x, y, z]
  {
    var v0, v1, v2, v3 := x / 4, (x % 4) * 16 + y / 16, (y % 16) * 4 + z / 64, z % 64;
    assert e[0] == e[..4][0] == Alphabet(v0);
    assert e[1] == e[..4][1] == Alphabet(v1);
    assert e[2] == e[..4][2] == Alphabet(v2);
    assert e[3] == e[..4][3] == Alphabet(v3);
    AlphabetIndexOf(v0);
    AlphabetIndexOf(v1);
    AlphabetIndexOf(v2);
    AlphabetIndexOf(v3);
    GroupRoundTrip(x, y, z);
  }

  /** Decoding a text whose first four characters are all in the alphabet. */
  lemma DecodeFullGroup(s: string)
    requires |s| >= 4 && |s| % 4 == 0
    requires InAlphabet(s[0]) && InAlphabet(s[1]) && InAlphabet(s[2]) && InAlphabet(s[3])
    ensures Decode(s) ==
      var g := DecodeGroup(AlphabetIndex(s[0]), AlphabetIndex(s[1]), AlphabetIndex(s[2]), AlphabetIndex(s[3]));
      match Decode(s[4..])
      case None => None
      case Some(rest) => Some(g + rest)
  {
    assert s[2] != '=' && s[3] != '=';
  }

  /** Decoding undoes encoding: the text the encoder writes carries every byte. */
  lemma {:induction false} DecodeEncode(b: seq<int>)
    requires AllBytes(b)
    ensures Decode(Encode(b)) == Some(b)
    decreases |b|
  {
    if |b| == 1 {
      assert b == [b[0]];
      DecodeEncodeOne(b[0]);
    } else if |b| == 2 {
      assert b == [b[0], b[1]];
      DecodeEncodeTwo(b[0], b[1]);
    } else if |b| >= 3 {
      DecodeEncode(b[3..]);
      DecodeEncodeGroup(b);
    }
  }

  /** A full group in front of a text that decodes to the remaining bytes decodes to them all. */
  lemma DecodeEncodeGroup(b: seq<int>)
    requires |b| >= 3 && AllBytes(b)
    requires Decode(Encode(b[3..])) == Some(b[3..])
    ensures Decode(Encode(b)) == Some(b)
  {
    var e := Encode(b);
    var rest := b[3..];
    EncodeSplit(b);
    assert e[..4] == EncodeGroup(b[0], b[1], b[2]) && e[4..] == Encode(rest);
    DecodeFront(e, b[0], b[1], b[2], rest);
    FrontThree(b);
  }

  lemma FrontThree(b: seq<int>)
    requires |b| >= 3
    ensures [b[0], b[1], b[2]] + b[3..] == b
  {
    assert b == b[..3] + b[3..];
  }

  /** The four characters of a group followed by a text that decodes decode to the group's
      bytes followed by that text's. */
  lemma DecodeFront(e: string, x: int, y: int, z: int, rest: seq<int>)
    requires IsByte(x) && IsByte(y) && IsByte(z)
    requires |e| >= 4 && |e| % 4 == 0 && e[..4] == EncodeGroup(x, y, z)
    requires Decode(e[4..]) == Some(rest)
    ensures Decode(e) == Some([x, y, z] + rest)
  {
    GroupDecodes(x, y, z, e);
    DecodeFullGroup(e);
  }
}
