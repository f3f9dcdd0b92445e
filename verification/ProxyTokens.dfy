/** Signed proxy tokens: payload and signature as base64url text with a dot between them. */
module ProxyTokens {
  import opened Basics
  import opened Base64

  /** `rest` stands for the claims that verification does not look at. */
  datatype Claims = Claims(keyId: string, userId: string, exp: int, iat: int, rest: string)

  datatype Verdict = Valid(claims: Claims) | Invalid(error: string)

  /**
   * The primitives the tokens are built from: JSON text as UTF-8 bytes, with its round-trip law, and the
   * keyed digest. `Parse` gives None where the source's parser throws.
   */
  datatype Primitives = Primitives(
    serialize: Claims -> seq<Byte>, parse: seq<Byte> -> Option<Claims>, hmac: (string, string) -> seq<Byte>)

  ghost predicate RoundTrips(p: Primitives) {
    forall c :: p.parse(p.serialize(c)) == Some(c)
  }

  /** `token.split(".")` */
  function Split(s: string): (r: seq<string>)
    ensures r != []
  {
    if s == [] then [[]]
    else
      var rest := Split(s[1..]);
      if s[0] == '.' then [[]] + rest else [[s[0]] + rest[0]] + rest[1..]
  }

  function Sign(p: Primitives, c: Claims, secret: string): string {
    var payload := UrlEncode(p.serialize(c));
    payload + "." + UrlEncode(p.hmac(secret, payload))
  }

  function Verify(p: Primitives, token: string, secret: string, now: int): Verdict {
    var parts := Split(token);
    if |parts| != 2 then Invalid("Invalid token format")
    else
      var claims := p.parse(UrlDecode(parts[0]));
      if claims.None? then Invalid("Invalid token payload")
      else if p.hmac(secret, parts[0]) != UrlDecode(parts[1]) then Invalid("Invalid token signature")
      else if claims.value.exp == 0 then Invalid("Token missing exp")
      else if claims.value.exp <= now then Invalid("Token expired")
      else if claims.value.keyId == "" || claims.value.userId == "" then Invalid("Token missing required claims")
      else Valid(claims.value)
  }

  // ---------------------------------------------------------------------------
  // Constant-time comparison
  // ---------------------------------------------------------------------------

  /** `x ^ y`, bit by bit. */
  function Xor(x: nat, y: nat): nat
    decreases x + y
  {
    if x == 0 && y == 0 then 0 else 2 * Xor(x / 2, y / 2) + (if x % 2 == y % 2 then 0 else 1)
  }

  /** `x | y`, bit by bit. */
  function Or(x: nat, y: nat): nat
    decreases x + y
  {
    if x == 0 && y == 0 then 0 else 2 * Or(x / 2, y / 2) + (if x % 2 == 0 && y % 2 == 0 then 0 else 1)
  }

  lemma {:induction false} XorIsZero(x: nat, y: nat)
    ensures Xor(x, y) == 0 <==> x == y
    decreases x + y
  {
    if x != 0 || y != 0 {
      XorIsZero(x / 2, y / 2);
    }
  }

  lemma {:induction false} OrIsZero(x: nat, y: nat)
    ensures Or(x, y) == 0 <==> x == 0 && y == 0
    decreases x + y
  {
    if x != 0 || y != 0 {
      OrIsZero(x / 2, y / 2);
    }
  }

  /** The loop that accumulates differences decides equality, wherever the first difference is. */
  method ConstantTimeEqual(a: seq<Byte>, b: seq<Byte>) returns (r: bool)
    ensures r <==> a == b
  {
    if |a| != |b| {
      return false;
    }
    var diff := 0;
    for i := 0 to |a|
      invariant diff == 0 <==> a[..i] == b[..i]
    {
      XorIsZero(a[i], b[i]);
      OrIsZero(diff, Xor(a[i], b[i]));
      assert a[..i + 1] == a[..i] + [a[i]] && b[..i + 1] == b[..i] + [b[i]];
      diff := Or(diff, Xor(a[i], b[i]));
    }
    assert a[..|a|] == a && b[..|b|] == b;
    r := diff == 0;
  }

  /** The verification as the gateway runs it, with the loop for the digests. */
  method VerifyProxyToken(p: Primitives, token: string, secret: string, now: int) returns (r: Verdict)
    ensures r == Verify(p, token, secret, now)
  {
    var parts := Split(token);
    if |parts| != 2 {
      return Invalid("Invalid token format");
    }
    var claims := p.parse(UrlDecode(parts[0]));
    if claims.None? {
      return Invalid("Invalid token payload");
    }
    var same := ConstantTimeEqual(p.hmac(secret, parts[0]), UrlDecode(parts[1]));
    if !same {
      return Invalid("Invalid token signature");
    }
    if claims.value.exp == 0 {
      return Invalid("Token missing exp");
    }
    if claims.value.exp <= now {
      return Invalid("Token expired");
    }
    if claims.value.keyId == "" || claims.value.userId == "" {
      return Invalid("Token missing required claims");
    }
    r := Valid(claims.value);
  }

  // ---------------------------------------------------------------------------
  // Verifying what was signed
  // ---------------------------------------------------------------------------

  lemma {:induction false} SplitPlain(s: string)
    requires '.' !in s
    ensures Split(s) == [s]
  {
    if s != [] {
      SplitPlain(s[1..]);
      assert s == [s[0]] + s[1..];
    }
  }

  lemma {:induction false} SplitTwo(a: string, b: string)
    requires '.' !in a && '.' !in b
    ensures Split(a + "." + b) == [a, b]
  {
    if a == [] {
      SplitPlain(b);
      assert (a + "." + b)[1..] == b;
    } else {
      SplitTwo(a[1..], b);
      assert (a + "." + b)[1..] == a[1..] + "." + b;
      assert a == [a[0]] + a[1..];
    }
  }

  /** A signed claim set verifies to itself exactly while it is unexpired and names a key and a user. */
  lemma VerifySign(p: Primitives, c: Claims, secret: string, now: int)
    requires RoundTrips(p)
    ensures Verify(p, Sign(p, c, secret), secret, now) == Valid(c)
            <==> c.exp != 0 && c.exp > now && c.keyId != "" && c.userId != ""
  {
    var payload := UrlEncode(p.serialize(c));
    var sig := UrlEncode(p.hmac(secret, payload));
    UrlEncodeIsPlain(p.serialize(c));
    UrlEncodeIsPlain(p.hmac(secret, payload));
    SplitTwo(payload, sig);
    UrlDecodeEncode(p.serialize(c));
    UrlDecodeEncode(p.hmac(secret, payload));
  }

  lemma {:induction false} JoinSplit(s: string)
    ensures |Split(s)| == 2 ==> s == Split(s)[0] + "." + Split(s)[1] && '.' !in Split(s)[0] && '.' !in Split(s)[1]
    ensures |Split(s)| == 1 ==> s == Split(s)[0] && '.' !in s
  {
    if s != [] {
      JoinSplit(s[1..]);
      assert s == [s[0]] + s[1..];
    }
  }

  /**
   * An accepted token has one dot, carries the digest of its payload text under the secret, and its
   * claims are unexpired and name a key and a user.
   */
  lemma AcceptedMeans(p: Primitives, token: string, secret: string, now: int)
    requires Verify(p, token, secret, now).Valid?
    ensures exists payload, sig ::
              && token == payload + "." + sig && '.' !in payload && '.' !in sig
              && UrlDecode(sig) == p.hmac(secret, payload)
              && p.parse(UrlDecode(payload)) == Some(Verify(p, token, secret, now).claims)
    ensures var c := Verify(p, token, secret, now).claims; c.exp > now && c.keyId != "" && c.userId != ""
  {
    JoinSplit(token);
    assert token == Split(token)[0] + "." + Split(token)[1];
  }
}
