/*
 * The gateway's authentication (api-gateway/auth/jwt.go): the secret
 * from the environment, HS256 tokens carrying the user's id, email and
 * role for 24 hours, and the middleware that lets a request through
 * only with a valid "Bearer <token>" header, apart from a few public
 * routes.
 *
 * A token is modelled by what it carries: its algorithm, its claims and
 * the key it was signed with (an ideal signature). `decode` stands for
 * parsing the compact token text; the environment is a map.
 */
module Auth {
  import opened Util
  import opened Message

  /** Go's byte. */
  newtype Byte = x: int | 0 <= x < 256

  type Bytes = seq<Byte>

  /** os.Getenv then the fallback for an unset or empty variable. */
  function GetEnv(env: map<string, string>, key: string, fallback: string): (v: string)
    ensures key in env && env[key] != "" ==> v == env[key]
    ensures key !in env || env[key] == "" ==> v == fallback
  {
    if key in env && env[key] != "" then env[key] else fallback
  }

  const DefaultSecret: string := "your-secret-key-change-in-production"

  // -----------------------------------------------------------------------
  // []byte(s): the UTF-8 encoding of a string
  // -----------------------------------------------------------------------

  /** The UTF-8 bytes of one Unicode scalar value: one to four bytes. */
  function Utf8Char(c: char): (b: Bytes)
    ensures 1 <= |b| <= 4
    ensures |b| == 1 <==> c as int < 0x80
    ensures |b| == 1 ==> b[0] as int == c as int
  {
    var v := c as int;
    if v < 0x80 then [v as Byte]
    else if v < 0x800 then [(0xC0 + v / 64) as Byte, (0x80 + v % 64) as Byte]
    else if v < 0x1_0000 then
      var low := v % 4096;
      [(0xE0 + v / 4096) as Byte, (0x80 + low / 64) as Byte, (0x80 + low % 64) as Byte]
    else
      var mid := v % 262144;
      var low := mid % 4096;
      [(0xF0 + v / 262144) as Byte, (0x80 + mid / 4096) as Byte, (0x80 + low / 64) as Byte, (0x80 + low % 64) as Byte]
  }

  /** []byte(s): the characters' encodings, one after another. */
  function Utf8(s: string): (b: Bytes)
    ensures |s| <= |b| <= 4 * |s|
    ensures (forall i :: 0 <= i < |s| ==> s[i] as int < 0x80) ==> |b| == |s|
    decreases |s|
  {
    if s == [] then [] else Utf8Char(s[0]) + Utf8(s[1..])
  }

  /** An ASCII string's bytes are its characters' codes. */
  lemma {:induction false} Utf8Ascii(s: string)
    requires forall i :: 0 <= i < |s| ==> s[i] as int < 0x80
    ensures |Utf8(s)| == |s| && forall i :: 0 <= i < |s| ==> Utf8(s)[i] as int == s[i] as int
    decreases |s|
  {
    if s != [] {
      Utf8Ascii(s[1..]);
      assert Utf8(s) == Utf8Char(s[0]) + Utf8(s[1..]);
      forall i | 1 <= i < |s|
        ensures Utf8(s)[i] as int == s[i] as int
      {
        assert Utf8(s)[i] == Utf8(s[1..])[i - 1];
        assert s[i] == s[1..][i - 1];
      }
    }
  }

  /** The length of the sequence a UTF-8 lead byte starts. */
  function Utf8Width(lead: Byte): (w: nat)
    ensures 1 <= w <= 4
  {
    if lead < 0x80 then 1 else if lead < 0xE0 then 2 else if lead < 0xF0 then 3 else 4
  }

  /** The code point of one encoded sequence, read back from its payload bits. */
  function CodePoint(b: Bytes): int
    requires 1 <= |b| <= 4
  {
    if |b| == 1 then b[0] as int
    else if |b| == 2 then (b[0] as int - 0xC0) * 64 + (b[1] as int - 0x80)
    else if |b| == 3 then (b[0] as int - 0xE0) * 4096 + (b[1] as int - 0x80) * 64 + (b[2] as int - 0x80)
    else (b[0] as int - 0xF0) * 262144 + (b[1] as int - 0x80) * 4096 + (b[2] as int - 0x80) * 64 + (b[3] as int - 0x80)
  }

  /** A UTF-8 decoder: the code points of the sequences, led by their first bytes. */
  function CodePoints(b: Bytes): seq<int>
    decreases |b|
  {
    if b == [] then []
    else if |b| < Utf8Width(b[0]) then []
    else [CodePoint(b[..Utf8Width(b[0])])] + CodePoints(b[Utf8Width(b[0])..])
  }

  /** The code points of a string. */
  function Scalars(s: string): (r: seq<int>)
    ensures |r| == |s| && forall i :: 0 <= i < |s| ==> r[i] == s[i] as int
  {
    seq(|s|, i requires 0 <= i < |s| => s[i] as int)
  }

  /** Euclidean division by a positive constant splits a number into its digit and the rest. */
  lemma DivSplit(x: int, k: int)
    requires 0 <= x && 0 < k
    ensures x == (x / k) * k + x % k && 0 <= x % k < k
  {
  }

  lemma TwoBytes(v: int)
    requires 0x80 <= v < 0x800
    ensures var b: Bytes := [(0xC0 + v / 64) as Byte, (0x80 + v % 64) as Byte];
      Utf8Width(b[0]) == 2 && CodePoint(b) == v
  {
    DivSplit(v, 64);
  }

  lemma ThreeBytes(v: int)
    requires 0x800 <= v < 0x1_0000
    ensures var low := v % 4096;
      var b: Bytes := [(0xE0 + v / 4096) as Byte, (0x80 + low / 64) as Byte, (0x80 + low % 64) as Byte];
      Utf8Width(b[0]) == 3 && CodePoint(b) == v
  {
    var low := v % 4096;
    DivSplit(v, 4096);
    DivSplit(low, 64);
  }

  lemma FourBytes(v: int)
    requires 0x1_0000 <= v < 0x11_0000
    ensures var mid := v % 262144;
      var low := mid % 4096;
      var b: Bytes := [(0xF0 + v / 262144) as Byte, (0x80 + mid / 4096) as Byte, (0x80 + low / 64) as Byte, (0x80 + low % 64) as Byte];
      Utf8Width(b[0]) == 4 && CodePoint(b) == v
  {
    var mid := v % 262144;
    var low := mid % 4096;
    DivSplit(v, 262144);
    DivSplit(mid, 4096);
    DivSplit(low, 64);
  }

  /** One character's bytes start with a lead byte announcing their number, and decode to it. */
  lemma Utf8CharDecodes(c: char)
    ensures Utf8Width(Utf8Char(c)[0]) == |Utf8Char(c)|
    ensures CodePoint(Utf8Char(c)) == c as int
  {
    var v := c as int;
    if 0x80 <= v < 0x800 {
      TwoBytes(v);
    } else if 0x800 <= v < 0x1_0000 {
      ThreeBytes(v);
    } else if 0x1_0000 <= v {
      FourBytes(v);
    }
  }

  /** Decoding the UTF-8 bytes of a string gives back its characters. */
  lemma {:induction false} Utf8RoundTrip(s: string)
    ensures CodePoints(Utf8(s)) == Scalars(s)
    decreases |s|
  {
    if s != [] {
      var head := Utf8Char(s[0]);
      Utf8CharDecodes(s[0]);
      Utf8RoundTrip(s[1..]);
      var b := Utf8(s);
      assert b == head + Utf8(s[1..]);
      assert b[0] == head[0];
      assert b[..|head|] == head && b[|head|..] == Utf8(s[1..]);
      assert Scalars(s) == [s[0] as int] + Scalars(s[1..]);
    }
  }

  /** Different strings have different bytes. */
  lemma Utf8Injective(s: string, t: string)
    requires Utf8(s) == Utf8(t)
    ensures s == t
  {
    Utf8RoundTrip(s);
    Utf8RoundTrip(t);
    assert |s| == |t|;
    forall i | 0 <= i < |s|
      ensures s[i] == t[i]
    {
      assert Scalars(s)[i] == Scalars(t)[i];
    }
  }

  /** jwtSecretKey: the bytes of JWT_SECRET, or of the default when it is unset or empty. */
  function SecretKey(env: map<string, string>): Bytes {
    Utf8(GetEnv(env, "JWT_SECRET", DefaultSecret))
  }

  /** Two environments share a signing key exactly when they name the same secret. */
  lemma SecretKeyExact(e1: map<string, string>, e2: map<string, string>)
    ensures SecretKey(e1) == SecretKey(e2) <==> GetEnv(e1, "JWT_SECRET", DefaultSecret) == GetEnv(e2, "JWT_SECRET", DefaultSecret)
  {
    if SecretKey(e1) == SecretKey(e2) {
      Utf8Injective(GetEnv(e1, "JWT_SECRET", DefaultSecret), GetEnv(e2, "JWT_SECRET", DefaultSecret));
    }
  }

  // -----------------------------------------------------------------------
  // Tokens
  // -----------------------------------------------------------------------

  datatype Alg = HS256 | HS384 | HS512 | RS256 | ES256 | NoneAlg

  predicate IsHmac(a: Alg) {
    a == HS256 || a == HS384 || a == HS512
  }

  /** UserClaims: the three user fields and the registered claims (times as NumericDate). */
  datatype Claims = Claims(
    userId: string, email: string, role: string,
    expiresAt: Option<Time>, issuedAt: Option<Time>, notBefore: Option<Time>,
    issuer: string, subject: string, jti: string)

  datatype Token = Token(alg: Alg, claims: Claims, signedWith: Bytes)

  const Second: int := 1_000_000_000
  const Day: int := 24 * 60 * 60 * Second

  /** jwt.NewNumericDate: the time truncated to whole seconds. */
  function NumericDate(t: Time): (d: Time)
    ensures d <= t < d + Second && d % Second == 0
  {
    t / Second * Second
  }

  /** GenerateToken: HS256, signed with the secret, valid for 24 hours from issue. */
  function GenerateToken(userId: string, email: string, role: string, now: Time, jti: string, secret: Bytes): (t: Token)
    ensures t.alg == HS256 && t.signedWith == secret
    ensures t.claims.userId == userId && t.claims.email == email && t.claims.role == role
    ensures t.claims.subject == userId && t.claims.issuer == "gobuild-api" && t.claims.jti == jti
    ensures t.claims.issuedAt == t.claims.notBefore == Some(NumericDate(now))
    ensures t.claims.expiresAt == Some(NumericDate(now) + Day)
  {
    Token(HS256, Claims(userId, email, role, Some(NumericDate(now + Day)), Some(NumericDate(now)), Some(NumericDate(now)),
                        "gobuild-api", userId, jti), secret)
  }

  /** The registered time claims the parser checks by default: not expired, already valid. */
  predicate TimesValid(c: Claims, now: Time) {
    (c.expiresAt.None? || now < c.expiresAt.value) && (c.notBefore.None? || now >= c.notBefore.value)
  }

  /**
   * Signature verification with a byte-slice key: only the HMAC methods
   * take one; the others refuse it as a key of the wrong type.
   */
  predicate Verifies(t: Token, key: Bytes) {
    IsHmac(t.alg) && t.signedWith == key
  }

  /** The key callback: non-HMAC methods are refused before any key is given. */
  function KeyFor(t: Token, secret: Bytes): (k: Option<Bytes>)
    ensures k.Some? <==> IsHmac(t.alg)
    ensures k.Some? ==> k.value == secret
  {
    if IsHmac(t.alg) then Some(secret) else None
  }

  /** ValidateToken: the claims of a well-formed, correctly signed, current token; None otherwise. */
  function ValidateToken(text: string, now: Time, secret: Bytes, decode: string -> Option<Token>): (r: Option<Claims>)
    ensures r.Some? <==>
      decode(text).Some? && Verifies(decode(text).value, secret) && TimesValid(decode(text).value.claims, now)
    ensures r.Some? ==> r.value == decode(text).value.claims
  {
    match decode(text)
    case None => None
    case Some(t) =>
      match KeyFor(t, secret)
      case None => None
      case Some(k) => if Verifies(t, k) && TimesValid(t.claims, now) then Some(t.claims) else None
  }

  /** A generated token is accepted from its issue second until exactly 24 hours later. */
  lemma GeneratedTokenWindow(userId: string, email: string, role: string, issued: Time, jti: string,
                             secret: Bytes, text: string, now: Time, decode: string -> Option<Token>)
    requires decode(text) == Some(GenerateToken(userId, email, role, issued, jti, secret))
    ensures ValidateToken(text, now, secret, decode).Some? <==>
      NumericDate(issued) <= now < NumericDate(issued) + Day
  {
  }

  /** A token signed with another key, or with a non-HMAC method, is refused at any time. */
  lemma ForeignTokenRefused(text: string, now: Time, secret: Bytes, decode: string -> Option<Token>)
    requires decode(text).Some?
    requires decode(text).value.signedWith != secret || !IsHmac(decode(text).value.alg)
    ensures ValidateToken(text, now, secret, decode).None?
  {
  }

  // -----------------------------------------------------------------------
  // Middleware
  // -----------------------------------------------------------------------

  /** The token of an Authorization header: exactly two single-space-separated parts, the first "Bearer". */
  function BearerToken(header: string): (r: Option<string>)
    ensures r.Some? ==> header == "Bearer " + r.value && ' ' !in r.value
  {
    var parts := Split(header, ' ');
    if |parts| == 2 && parts[0] == "Bearer" then
      JoinSplit(header, ' ');
      SplitPiecesFree(header, ' ');
      assert Join(parts, ' ') == parts[0] + [' '] + parts[1];
      Some(parts[1])
    else None
  }

  /** Every "Bearer " followed by a token without spaces is accepted as that token. */
  lemma BearerTokenComplete(token: string)
    requires ' ' !in token
    ensures BearerToken("Bearer " + token) == Some(token)
  {
    var parts := ["Bearer", token];
    assert Join(parts, ' ') == "Bearer " + token by {
      assert Join(parts[1..], ' ') == token;
    }
    SplitJoin(parts, ' ');
  }

  /** "bearer x" and "Bearer  x" are refused: the scheme is case-sensitive and spaces are not collapsed. */
  lemma BearerStrict()
    ensures BearerToken("bearer x").None?
    ensures BearerToken("Bearer  x").None?
  {
    assert "bearer x"[0] != "Bearer "[0];
    assert forall t :: "Bearer  x" == "Bearer " + t ==> ' ' in t by {
      forall t | "Bearer  x" == "Bearer " + t
        ensures ' ' in t
      {
        assert t[0] == "Bearer  x"[7];
      }
    }
  }

  datatype Request = Request(verb: string, path: string, authorization: string)

  /** What the middleware does with a request. */
  datatype Decision =
    | PassThrough                   // the handler runs without claims
    | Unauthorized(reason: string)  // 401; the handler does not run
    | Authorized(claims: Claims)    // the handler runs with the claims in its context

  const Public: set<string> := {"/api/login", "/api/register", "/health"}

  /** AuthMiddleware's decision. */
  function Gate(r: Request, now: Time, secret: Bytes, decode: string -> Option<Token>): (d: Decision)
    ensures d.PassThrough? <==> r.verb == "OPTIONS" || r.path in Public
    ensures !d.PassThrough? && r.authorization == "" ==> d == Unauthorized("Authorization header is required")
    ensures d.Authorized? <==>
      !(r.verb == "OPTIONS" || r.path in Public)
      && BearerToken(r.authorization).Some?
      && ValidateToken(BearerToken(r.authorization).value, now, secret, decode).Some?
    ensures d.Authorized? ==> d.claims == ValidateToken(BearerToken(r.authorization).value, now, secret, decode).value
  {
    if r.verb == "OPTIONS" || r.path in Public then PassThrough
    else if r.authorization == "" then Unauthorized("Authorization header is required")
    else match BearerToken(r.authorization)
      case None => Unauthorized("Invalid authorization format")
      case Some(text) =>
        match ValidateToken(text, now, secret, decode)
        case None => Unauthorized("Invalid token")
        case Some(c) => Authorized(c)
  }

  /** Logging in with a fresh token reaches any protected route with the user's claims. */
  lemma FreshTokenAuthorizes(r: Request, userId: string, email: string, role: string, issued: Time, jti: string,
                             env: map<string, string>, text: string, now: Time, decode: string -> Option<Token>)
    requires r.verb != "OPTIONS" && r.path !in Public
    requires r.authorization == "Bearer " + text && ' ' !in text
    requires decode(text) == Some(GenerateToken(userId, email, role, issued, jti, SecretKey(env)))
    requires NumericDate(issued) <= now < NumericDate(issued) + Day
    ensures Gate(r, now, SecretKey(env), decode) == Authorized(GenerateToken(userId, email, role, issued, jti, SecretKey(env)).claims)
  {
    var key := SecretKey(env);
    FreshTokenAuthorizesUnder(r, userId, email, role, issued, jti, key, text, now, decode);
  }

  lemma FreshTokenAuthorizesUnder(r: Request, userId: string, email: string, role: string, issued: Time, jti: string,
                                  key: Bytes, text: string, now: Time, decode: string -> Option<Token>)
    requires r.verb != "OPTIONS" && r.path !in Public
    requires r.authorization == "Bearer " + text && ' ' !in text
    requires decode(text) == Some(GenerateToken(userId, email, role, issued, jti, key))
    requires NumericDate(issued) <= now < NumericDate(issued) + Day
    ensures Gate(r, now, key, decode) == Authorized(GenerateToken(userId, email, role, issued, jti, key).claims)
  {
    BearerTokenComplete(text);
  }
}
