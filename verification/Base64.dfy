/** The base64 codec of the relay messages and the base64url codec of the proxy tokens. */
module Base64 {

  type Byte = x: int | 0 <= x < 256
  type Sextet = x: int | 0 <= x < 64

  // ---------------------------------------------------------------------------
  // Bytes and sextets
  // ---------------------------------------------------------------------------

  // The four sextets of three bytes, and the three bytes of four sextets.
  function S0(a: Byte): Sextet { a / 4 }
  function S1(a: Byte, b: Byte): Sextet { a % 4 * 16 + b / 16 }
  function S2(b: Byte, c: Byte): Sextet { b % 16 * 4 + c / 64 }
  function S3(c: Byte): Sextet { c % 64 }
  function T1(a: Byte): Sextet { a % 4 * 16 }
  function T2(b: Byte): Sextet { b % 16 * 4 }
  function B0(v: Sextet, w: Sextet): Byte { v * 4 + w / 16 }
  function B1(w: Sextet, x: Sextet): Byte { w % 16 * 16 + x / 4 }
  function B2(x: Sextet, y: Sextet): Byte { x % 4 * 64 + y }

  /** Three bytes give four sextets; a tail of one or two bytes gives two or three. */
  function Sextets(b: seq<Byte>): seq<Sextet> {
    if |b| == 0 then []
    else if |b| == 1 then [S0(b[0]), T1(b[0])]
    else if |b| == 2 then [S0(b[0]), S1(b[0], b[1]), T2(b[1])]
    else [S0(b[0]), S1(b[0], b[1]), S2(b[1], b[2]), S3(b[2])] + Sextets(b[3..])
  }

  /** Four sextets give three bytes; a lone last sextet gives nothing. */
  function Bytes(v: seq<Sextet>): seq<Byte> {
    if |v| < 2 then []
    else if |v| == 2 then [B0(v[0], v[1])]
    else if |v| == 3 then [B0(v[0], v[1]), B1(v[1], v[2])]
    else [B0(v[0], v[1]), B1(v[1], v[2]), B2(v[2], v[3])] + Bytes(v[4..])
  }

  lemma Group(a: Byte, b: Byte, c: Byte)
    ensures B0(S0(a), S1(a, b)) == a && B1(S1(a, b), S2(b, c)) == b && B2(S2(b, c), S3(c)) == c
    ensures B0(S0(a), T1(a)) == a && B1(S1(a, b), T2(b)) == b
  {
  }

  lemma BytesStep(v: seq<Sextet>, rest: seq<Sextet>)
    requires |v| == 4
    ensures Bytes(v + rest) == [B0(v[0], v[1]), B1(v[1], v[2]), B2(v[2], v[3])] + Bytes(rest)
  {
    assert (v + rest)[4..] == rest;
  }

  lemma TwoSextets(v: Sextet, w: Sextet)
    ensures Bytes([v, w]) == [B0(v, w)]
  {
  }

  lemma OneByte(a: Byte)
    ensures Bytes(Sextets([a])) == [a]
  {
    TwoSextets(S0(a), T1(a));
    Group(a, a, a);
    assert Sextets([a]) == [S0(a), T1(a)];
  }

  lemma Singleton(b: seq<Byte>)
    requires |b| == 1
    ensures b == [b[0]]
  {
  }

  lemma ShortTail(b: seq<Byte>)
    requires |b| < 3
    ensures Bytes(Sextets(b)) == b
  {
    if |b| == 1 {
      OneByte(b[0]);
      Singleton(b);
    } else if |b| == 2 {
      Group(b[0], b[1], b[1]);
      assert b == [b[0], b[1]] == Bytes([S0(b[0]), S1(b[0], b[1]), T2(b[1])]);
    }
  }

  lemma {:induction false} BytesOfSextets(b: seq<Byte>)
    ensures Bytes(Sextets(b)) == b
    decreases |b|
  {
    if |b| < 3 {
      ShortTail(b);
    } else {
      var head := [S0(b[0]), S1(b[0], b[1]), S2(b[1], b[2]), S3(b[2])];
      calc {
        Bytes(Sextets(b));
        Bytes(head + Sextets(b[3..]));
        { BytesStep(head, Sextets(b[3..])); Group(b[0], b[1], b[2]); }
        [b[0], b[1], b[2]] + Bytes(Sextets(b[3..]));
        { BytesOfSextets(b[3..]); }
        b;
      }
    }
  }

  // ---------------------------------------------------------------------------
  // Text
  // ---------------------------------------------------------------------------

  function Symbol(v: Sextet): (c: char)
    ensures ValueOf(c) == v
  {
    if v < 26 then 'A' + v as char
    else if v < 52 then 'a' + (v - 26) as char
    else if v < 62 then '0' + (v - 52) as char
    else if v == 62 then '+' else '/'
  }

  /** The decoder accepts both alphabets; -1 marks a character that it skips. */
  function ValueOf(c: char): (r: int)
    ensures -1 <= r < 64
  {
    if 'A' <= c <= 'Z' then (c - 'A') as int
    else if 'a' <= c <= 'z' then (c - 'a') as int + 26
    else if '0' <= c <= '9' then (c - '0') as int + 52
    else if c == '+' || c == '-' then 62
    else if c == '/' || c == '_' then 63
    else -1
  }

  function Text(v: seq<Sextet>): string {
    seq(|v|, i requires 0 <= i < |v| => Symbol(v[i]))
  }

  function Values(s: string): seq<Sextet> {
    if s == [] then []
    else if ValueOf(s[0]) < 0 then Values(s[1..])
    else [ValueOf(s[0])] + Values(s[1..])
  }

  function Repeat(c: char, n: nat): (s: string)
    ensures |s| == n && forall i | 0 <= i < n :: s[i] == c
  {
    seq(n, _ => c)
  }

  /** `toString("base64")` */
  function Encode(b: seq<Byte>): string {
    Text(Sextets(b)) + Repeat('=', (3 - |b| % 3) % 3)
  }

  /** `Buffer.from(text, "base64")` */
  function Decode(s: string): seq<Byte> {
    Bytes(Values(s))
  }

  lemma {:induction false} ValuesOfText(v: seq<Sextet>, s: string, tail: string)
    requires |s| == |v| && forall i | 0 <= i < |v| :: ValueOf(s[i]) == v[i]
    requires forall c | c in tail :: ValueOf(c) < 0
    ensures Values(s + tail) == v
  {
    if v == [] {
      assert s + tail == tail;
      if tail != [] {
        ValuesOfText([], [], tail[1..]);
        assert [] + tail[1..] == tail[1..];
        assert ValueOf(tail[0]) < 0;
      }
    } else {
      ValuesOfText(v[1..], s[1..], tail);
      assert (s + tail)[1..] == s[1..] + tail;
      assert v == [v[0]] + v[1..];
    }
  }

  /** Every payload survives the channel. */
  lemma DecodeEncode(b: seq<Byte>)
    ensures Decode(Encode(b)) == b
  {
    BytesOfSextets(b);
    ValuesOfText(Sextets(b), Text(Sextets(b)), Repeat('=', (3 - |b| % 3) % 3));
  }

  // ---------------------------------------------------------------------------
  // The URL-safe variant, section 5 of RFC 4648
  // ---------------------------------------------------------------------------

  function Replace(s: string, from: char, to: char): string {
    seq(|s|, i requires 0 <= i < |s| => if s[i] == from then to else s[i])
  }

  /** `.replace(/=+$/g, "")` */
  function StripPadding(s: string): string {
    if s != [] && s[|s| - 1] == '=' then StripPadding(s[..|s| - 1]) else s
  }

  function UrlEncode(b: seq<Byte>): string {
    StripPadding(Replace(Replace(Encode(b), '+', '-'), '/', '_'))
  }

  function UrlDecode(s: string): seq<Byte> {
    var b64 := Replace(Replace(s, '-', '+'), '_', '/');
    Decode(b64 + Repeat('=', (4 - |b64| % 4) % 4))
  }

  predicate UrlSafe(c: char) {
    'A' <= c <= 'Z' || 'a' <= c <= 'z' || '0' <= c <= '9' || c == '-' || c == '_'
  }

  lemma {:induction false} StripsAll(s: string, pad: string)
    requires '=' !in s && forall i | 0 <= i < |pad| :: pad[i] == '='
    ensures StripPadding(s + pad) == s
  {
    if pad == [] {
      assert s + pad == s;
      if s != [] { assert s[|s| - 1] in s; }
    } else {
      assert (s + pad)[..|s + pad| - 1] == s + pad[..|pad| - 1];
      StripsAll(s, pad[..|pad| - 1]);
    }
  }

  /** The text of an encoding: one URL-safe symbol per sextet, no padding. */
  lemma UrlEncodeText(b: seq<Byte>)
    ensures |UrlEncode(b)| == |Sextets(b)|
    ensures forall i | 0 <= i < |Sextets(b)| :: UrlSafe(UrlEncode(b)[i]) && ValueOf(UrlEncode(b)[i]) == Sextets(b)[i]
  {
    var v, pad := Sextets(b), Repeat('=', (3 - |b| % 3) % 3);
    var text := Replace(Replace(Text(v), '+', '-'), '/', '_');
    assert Replace(Replace(Encode(b), '+', '-'), '/', '_') == text + pad;
    forall i | 0 <= i < |text| ensures text[i] != '=' {
      assert ValueOf(text[i]) == v[i];
    }
    StripsAll(text, pad);
  }

  /** Going back to the standard alphabet changes no symbol's value. */
  lemma StandardValues(s: string, i: nat)
    requires i < |s|
    ensures ValueOf(Replace(Replace(s, '-', '+'), '_', '/')[i]) == ValueOf(s[i])
  {
  }

  /** Decoding gives back the bytes. */
  lemma UrlDecodeEncode(b: seq<Byte>)
    ensures UrlDecode(UrlEncode(b)) == b
  {
    UrlEncodeText(b);
    BytesOfSextets(b);
    var s := UrlEncode(b);
    var b64 := Replace(Replace(s, '-', '+'), '_', '/');
    var pad := Repeat('=', (4 - |b64| % 4) % 4);
    forall i | 0 <= i < |b64| ensures ValueOf(b64[i]) == Sextets(b)[i] {
      StandardValues(s, i);
    }
    ValuesOfText(Sextets(b), b64, pad);
  }

  /** The text contains neither a dot nor padding. */
  lemma UrlEncodeIsPlain(b: seq<Byte>)
    ensures '.' !in UrlEncode(b) && '=' !in UrlEncode(b)
  {
    UrlEncodeText(b);
    forall i | 0 <= i < |UrlEncode(b)| ensures UrlEncode(b)[i] != '.' && UrlEncode(b)[i] != '=' {
      assert UrlSafe(UrlEncode(b)[i]);
    }
  }
}
