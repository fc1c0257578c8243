/** The browser's `atob`: forgiving-base64 decoding as the WHATWG HTML
    standard defines it, over the alphabet of section 4 of RFC 4648. The
    result is a "binary string" whose character codes are the bytes. `btoa`
    (padded encoding) is its partner. */
module Base64 {
  import opened Types

  /** ASCII whitespace, which `atob` ignores wherever it appears. */
  predicate IsAsciiWhitespace(c: char) {
    c == '\t' || c == '\n' || c == '\U{000C}' || c == '\r' || c == ' '
  }

  /** A character of the base64 alphabet (RFC 4648, Table 1). */
  predicate IsBase64Char(c: char) {
    ('A' <= c <= 'Z') || ('a' <= c <= 'z') || ('0' <= c <= '9') || c == '+' || c == '/'
  }

  predicate AllBase64(s: string) {
    forall i | 0 <= i < |s| :: IsBase64Char(s[i])
  }

  /** The six-bit value a base64 character encodes. */
  function SextetValue(c: char): (v: nat)
    requires IsBase64Char(c)
    ensures v < 64
  {
    if 'A' <= c <= 'Z' then c as int - 'A' as int
    else if 'a' <= c <= 'z' then c as int - 'a' as int + 26
    else if '0' <= c <= '9' then c as int - '0' as int + 52
    else if c == '+' then 62
    else 63
  }

  /** The character that encodes a six-bit value. */
  function SextetChar(v: nat): (c: char)
    requires v < 64
    ensures IsBase64Char(c) && SextetValue(c) == v
  {
    if v < 26 then ('A' as int + v) as char
    else if v < 52 then ('a' as int + v - 26) as char
    else if v < 62 then ('0' as int + v - 52) as char
    else if v == 62 then '+'
    else '/'
  }

  /** The input with every ASCII whitespace character removed. */
  function StripWhitespace(s: string): (r: string)
    ensures |r| <= |s|
    ensures forall i | 0 <= i < |r| :: !IsAsciiWhitespace(r[i])
  {
    if s == [] then [] else (if IsAsciiWhitespace(s[0]) then [] else [s[0]]) + StripWhitespace(s[1..])
  }

  /** When the length is a multiple of four, one or two trailing `=` are dropped. */
  function StripPadding(d: string): (r: string)
    ensures |r| <= |d| && r == d[..|r|]
  {
    if |d| % 4 == 0 && |d| >= 2 && d[|d| - 2..] == "==" then d[..|d| - 2]
    else if |d| % 4 == 0 && |d| >= 1 && d[|d| - 1] == '=' then d[..|d| - 1]
    else d
  }

  /** Decodes the three bytes of four sextets. */
  function Group(a: nat, b: nat, c: nat, d: nat): (r: seq<uint8>)
    requires a < 64 && b < 64 && c < 64 && d < 64
    ensures |r| == 3
  {
    [(a * 4 + b / 16) as uint8, ((b % 16) * 16 + c / 4) as uint8, ((c % 4) * 64 + d) as uint8]
  }

  /** Decodes a padding-free base64 string; a trailing group of two or three
      characters yields one or two bytes, and its leftover bits are discarded. */
  function DecodeSextets(s: string): (r: seq<uint8>)
    requires AllBase64(s) && |s| % 4 != 1
    ensures |r| == 3 * (|s| / 4) + (if |s| % 4 == 0 then 0 else |s| % 4 - 1)
    decreases |s|
  {
    if |s| == 0 then []
    else if |s| == 2 then
      [(SextetValue(s[0]) * 4 + SextetValue(s[1]) / 16) as uint8]
    else if |s| == 3 then
      var a, b, c := SextetValue(s[0]), SextetValue(s[1]), SextetValue(s[2]);
      [(a * 4 + b / 16) as uint8, ((b % 16) * 16 + c / 4) as uint8]
    else
      Group(SextetValue(s[0]), SextetValue(s[1]), SextetValue(s[2]), SextetValue(s[3])) + DecodeSextets(s[4..])
  }

  /** The binary string whose character codes are the given bytes. */
  function BinaryString(bytes: seq<uint8>): (s: string)
    ensures |s| == |bytes|
    ensures forall i | 0 <= i < |s| :: s[i] as int == bytes[i] as int
  {
    seq(|bytes|, i requires 0 <= i < |bytes| => bytes[i] as int as char)
  }

  /** `atob(s)`; `None` stands for the thrown `InvalidCharacterError`. It
      fails exactly when, after removing whitespace and padding, the length
      leaves remainder 1 modulo 4 or a character is outside the alphabet. */
  function Atob(s: string): (r: Option<string>)
    ensures r.None? <==>
      var d := StripPadding(StripWhitespace(s));
      |d| % 4 == 1 || !AllBase64(d)
    ensures r.Some? ==> forall i | 0 <= i < |r.value| :: r.value[i] as int < 256
  {
    var d := StripPadding(StripWhitespace(s));
    if |d| % 4 == 1 || !AllBase64(d) then None else Some(BinaryString(DecodeSextets(d)))
  }

  /** Encodes bytes without padding: four characters per three bytes, and
      two or three characters for a trailing one or two bytes. */
  function EncodeBytes(b: seq<uint8>): (r: string)
    ensures AllBase64(r)
    ensures |r| == 4 * (|b| / 3) + (if |b| % 3 == 0 then 0 else |b| % 3 + 1)
    decreases |b|
  {
    if |b| == 0 then ""
    else if |b| == 1 then
      var x := b[0] as int;
      [SextetChar(x / 4), SextetChar((x % 4) * 16)]
    else if |b| == 2 then
      var x, y := b[0] as int, b[1] as int;
      [SextetChar(x / 4), SextetChar((x % 4) * 16 + y / 16), SextetChar((y % 16) * 4)]
    else
      var x, y, z := b[0] as int, b[1] as int, b[2] as int;
      [SextetChar(x / 4), SextetChar((x % 4) * 16 + y / 16), SextetChar((y % 16) * 4 + z / 64), SextetChar(z % 64)]
      + EncodeBytes(b[3..])
  }

  /** `btoa` of the binary string of `b`: the encoding padded with `=` to a
      multiple of four characters. */
  function Btoa(b: seq<uint8>): (r: string)
    ensures |r| % 4 == 0
  {
    EncodeBytes(b) + (if |b| % 3 == 1 then "==" else if |b| % 3 == 2 then "=" else "")
  }

  /** Sextets of three bytes decode back to the bytes. */
  lemma GroupRoundTrip(x: int, y: int, z: int)
    requires 0 <= x < 256 && 0 <= y < 256 && 0 <= z < 256
    ensures Group(x / 4, (x % 4) * 16 + y / 16, (y % 16) * 4 + z / 64, z % 64)
         == [x as uint8, y as uint8, z as uint8]
  {
    var b, c := (x % 4) * 16 + y / 16, (y % 16) * 4 + z / 64;
    assert b / 16 == x % 4 && b % 16 == y / 16;
    assert c / 4 == y % 16 && c % 4 == z / 64;
  }

  /** A trailing single byte survives encoding and decoding. */
  lemma TailOneRoundTrip(x: int)
    requires 0 <= x < 256
    ensures DecodeSextets([SextetChar(x / 4), SextetChar((x % 4) * 16)]) == [x as uint8]
  {
    assert ((x % 4) * 16) / 16 == x % 4;
  }

  /** A trailing pair of bytes survives encoding and decoding. */
  lemma TailTwoRoundTrip(x: int, y: int)
    requires 0 <= x < 256 && 0 <= y < 256
    ensures DecodeSextets([SextetChar(x / 4), SextetChar((x % 4) * 16 + y / 16), SextetChar((y % 16) * 4)])
         == [x as uint8, y as uint8]
  {
    var v := (x % 4) * 16 + y / 16;
    assert v / 16 == x % 4 && v % 16 == y / 16;
    assert ((y % 16) * 4) / 4 == y % 16;
  }

  /** Decoding a full group followed by more characters decodes the group first. */
  lemma DecodeLeadingGroup(g: string, rest: string)
    requires |g| == 4 && AllBase64(g) && AllBase64(rest) && |rest| % 4 != 1
    ensures AllBase64(g + rest) && |g + rest| % 4 != 1
    ensures DecodeSextets(g + rest)
         == Group(SextetValue(g[0]), SextetValue(g[1]), SextetValue(g[2]), SextetValue(g[3])) + DecodeSextets(rest)
  {
    var s := g + rest;
    assert s[4..] == rest;
    assert s[..4] == g;
  }

  /** An unpadded encoding never leaves remainder 1 modulo 4. */
  lemma EncodedLength(b: seq<uint8>)
    ensures AllBase64(EncodeBytes(b)) && |EncodeBytes(b)| % 4 != 1
  {
    var n := |EncodeBytes(b)|;
    assert n % 4 == (if |b| % 3 == 0 then 0 else |b| % 3 + 1);
  }

  /** One step of the round trip: the first three bytes come back, then the rest. */
  lemma DecodeEncodeStep(b: seq<uint8>)
    requires |b| >= 3
    requires DecodeSextets(EncodeBytes(b[3..])) == b[3..]
    ensures AllBase64(EncodeBytes(b)) && |EncodeBytes(b)| % 4 != 1
    ensures DecodeSextets(EncodeBytes(b)) == b
  {
    EncodedLength(b);
    EncodedLength(b[3..]);
    var x, y, z := b[0] as int, b[1] as int, b[2] as int;
    var g := [SextetChar(x / 4), SextetChar((x % 4) * 16 + y / 16), SextetChar((y % 16) * 4 + z / 64), SextetChar(z % 64)];
    assert EncodeBytes(b) == g + EncodeBytes(b[3..]);
    DecodeLeadingGroup(g, EncodeBytes(b[3..]));
    GroupRoundTrip(x, y, z);
    assert b == [b[0], b[1], b[2]] + b[3..];
  }

  /** Decoding the unpadded encoding gives the bytes back. */
  lemma {:induction false} DecodeEncode(b: seq<uint8>)
    ensures AllBase64(EncodeBytes(b)) && |EncodeBytes(b)| % 4 != 1
    ensures DecodeSextets(EncodeBytes(b)) == b
    decreases |b|
  {
    EncodedLength(b);
    if |b| == 1 {
      TailOneRoundTrip(b[0] as int);
    } else if |b| == 2 {
      TailTwoRoundTrip(b[0] as int, b[1] as int);
    } else if |b| >= 3 {
      DecodeEncode(b[3..]);
      DecodeEncodeStep(b);
    }
  }

  lemma {:induction false} StripWhitespaceIdentity(s: string)
    requires forall i | 0 <= i < |s| :: !IsAsciiWhitespace(s[i])
    ensures StripWhitespace(s) == s
    decreases |s|
  {
    if s != [] {
      StripWhitespaceIdentity(s[1..]);
    }
  }

  /** `btoa` output contains no whitespace, so stripping it changes nothing. */
  lemma BtoaHasNoWhitespace(b: seq<uint8>)
    ensures StripWhitespace(Btoa(b)) == Btoa(b)
  {
    var e, p := EncodeBytes(b), Btoa(b);
    assert forall i | 0 <= i < |p| :: i < |e| || p[i] == '=';
    StripWhitespaceIdentity(p);
  }

  /** Removing the padding of `btoa` output leaves the unpadded encoding. */
  lemma BtoaPaddingStripped(b: seq<uint8>)
    ensures StripPadding(Btoa(b)) == EncodeBytes(b)
  {
    var e, p := EncodeBytes(b), Btoa(b);
    if |b| % 3 == 1 {
      assert p == e + "==";
      assert p[|p| - 2..] == "==";
      assert p[..|p| - 2] == e;
    } else if |b| % 3 == 2 {
      assert p == e + "=";
      assert p[|p| - 2] == e[|e| - 1];
      assert p[..|p| - 1] == e;
    } else {
      assert p == e;
      if |b| > 0 {
        assert p[|p| - 1] == e[|e| - 1];
      }
    }
  }

  /** `atob` undoes `btoa`: the decoded binary string carries the original bytes. */
  lemma AtobBtoa(b: seq<uint8>)
    ensures Atob(Btoa(b)) == Some(BinaryString(b))
  {
    BtoaHasNoWhitespace(b);
    BtoaPaddingStripped(b);
    DecodeEncode(b);
  }
}
