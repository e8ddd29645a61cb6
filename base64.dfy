/**
 * The browser's `btoa` (Base64 encoding of a Latin-1 string) and its inverse `atob`. `btoa`
 * throws an InvalidCharacterError for any character above U+00FF; the model returns `None`.
 */
module Base64 {
  import opened Wrappers

  /** Every character fits in one byte, the only input `btoa` accepts. */
  predicate IsLatin1(s: string) {
    forall i :: 0 <= i < |s| ==> s[i] as int < 256
  }

  /** The Base64 alphabet value of a character (meaningful on the 64 alphabet characters). */
  function SextetValue(c: char): (v: nat)
    ensures v < 64
  {
    if 'A' <= c <= 'Z' then c as int - 'A' as int
    else if 'a' <= c <= 'z' then c as int - 'a' as int + 26
    else if '0' <= c <= '9' then c as int - '0' as int + 52
    else if c == '+' then 62
    else 63
  }

  /** The Base64 alphabet character of a 6-bit value: `A-Z a-z 0-9 + /`. */
  function SextetChar(v: nat): (c: char)
    requires v < 64
    ensures SextetValue(c) == v && c != '='
  {
    if v < 26 then ('A' as int + v) as char
    else if v < 52 then ('a' as int + v - 26) as char
    else if v < 62 then ('0' as int + v - 52) as char
    else if v == 62 then '+'
    else '/'
  }

  function Byte(c: char): (b: nat)
    requires c as int < 256
    ensures b < 256
  {
    c as int
  }

  /** One group of one to three bytes as four Base64 characters, `=`-padded when short. */
  function EncodeGroup(g: string): (q: string)
    requires 1 <= |g| <= 3 && IsLatin1(g)
    ensures |q| == 4
  {
    var a := Byte(g[0]);
    var b := if |g| > 1 then Byte(g[1]) else 0;
    var c := if |g| > 2 then Byte(g[2]) else 0;
    [SextetChar(a / 4), SextetChar((a % 4) * 16 + b / 16)]
    + (if |g| > 1 then [SextetChar((b % 16) * 4 + c / 64)] else ['='])
    + (if |g| > 2 then [SextetChar(c % 64)] else ['='])
  }

  /** Four Base64 characters back to the bytes they carry, padding dropped. */
  function DecodeGroup(q: string): (g: string)
    requires |q| == 4
    ensures IsLatin1(g)
  {
    var v0, v1, v2, v3 := SextetValue(q[0]), SextetValue(q[1]), SextetValue(q[2]), SextetValue(q[3]);
    var a := (v0 * 4 + v1 / 16) as char;
    var b := ((v1 % 16) * 16 + v2 / 4) as char;
    var c := ((v2 % 4) * 64 + v3) as char;
    if q[2] == '=' then [a] else if q[3] == '=' then [a, b] else [a, b, c]
  }

  /** Base64 text of a Latin-1 string: each group of three bytes becomes four characters. */
  function Encode(s: string): (r: string)
    requires IsLatin1(s)
    ensures |r| == 4 * ((|s| + 2) / 3)
  {
    if s == [] then ""
    else
      var k := if |s| < 3 then |s| else 3;
      EncodeGroup(s[..k]) + Encode(s[k..])
  }

  /** `btoa`. */
  function Btoa(s: string): (r: Option<string>)
    ensures r.Some? <==> IsLatin1(s)
  {
    if IsLatin1(s) then Some(Encode(s)) else None
  }

  /** `atob` on the text `btoa` produces. */
  function Atob(e: string): (s: string)
    ensures IsLatin1(s)
  {
    if |e| < 4 then "" else DecodeGroup(e[..4]) + Atob(e[4..])
  }

  lemma BlockRoundTrip(a: nat, b: nat, c: nat)
    requires a < 256 && b < 256 && c < 256
    ensures (a / 4) * 4 + ((a % 4) * 16 + b / 16) / 16 == a
    ensures (((a % 4) * 16 + b / 16) % 16) * 16 + ((b % 16) * 4 + c / 64) / 4 == b
    ensures (((b % 16) * 4 + c / 64) % 4) * 64 + c % 64 == c
  {
  }

  lemma GroupRoundTrip(g: string)
    requires 1 <= |g| <= 3 && IsLatin1(g)
    ensures DecodeGroup(EncodeGroup(g)) == g
  {
    var a := Byte(g[0]);
    var b := if |g| > 1 then Byte(g[1]) else 0;
    var c := if |g| > 2 then Byte(g[2]) else 0;
    BlockRoundTrip(a, b, c);
  }

  /** `atob(btoa(s)) == s` for every string `btoa` accepts. */
  lemma {:induction false} AtobBtoa(s: string)
    requires IsLatin1(s)
    ensures Atob(Encode(s)) == s
  {
    if s != [] {
      var k := if |s| < 3 then |s| else 3;
      var q, rest := EncodeGroup(s[..k]), Encode(s[k..]);
      assert (q + rest)[..4] == q && (q + rest)[4..] == rest;
      GroupRoundTrip(s[..k]);
      AtobBtoa(s[k..]);
      assert s == s[..k] + s[k..];
    }
  }

  /** `btoa` is injective: equal encodings come from equal strings. */
  lemma BtoaInjective(p: string, q: string)
    requires Btoa(p).Some? && Btoa(p) == Btoa(q)
    ensures p == q
  {
    AtobBtoa(p);
    AtobBtoa(q);
  }
}
