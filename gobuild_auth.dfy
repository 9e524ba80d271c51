/*
 * The earlier gateway's authentication (gobuild/api-gateway/auth/jwt.go):
 * a fixed secret, tokens with only the user fields and the issue and
 * expiry times, a key callback that hands out the secret whatever the
 * signing method, and a middleware whose public routes do not include
 * /api/register.
 */
module GobuildAuth {
  import opened Util
  import opened Message
  import A = Auth

  const SecretText: string := "your-secret-key"

  /** jwtSecret: the bytes of the fixed secret, written out (SecretBytes checks them). */
  const Secret: A.Bytes := [0x79, 0x6F, 0x75, 0x72, 0x2D, 0x73, 0x65, 0x63, 0x72, 0x65, 0x74, 0x2D, 0x6B, 0x65, 0x79]

  /**
   * The written-out secret is the secret text's character codes, all
   * ASCII, which by Auth.Utf8Ascii is its UTF-8 encoding.
   */
  lemma SecretBytes()
    ensures |Secret| == |SecretText|
    ensures forall i :: 0 <= i < |SecretText| ==> SecretText[i] as int < 0x80 && Secret[i] as int == SecretText[i] as int
  {
  }

  /** GenerateToken: HS256, valid for 24 hours from issue, with no issuer, subject, not-before or id. */
  function GenerateToken(userId: string, email: string, role: string, now: Time): (t: A.Token)
    ensures t.alg == A.HS256 && t.signedWith == Secret
    ensures t.claims.userId == userId && t.claims.email == email && t.claims.role == role
    ensures t.claims.issuer == "" && t.claims.subject == "" && t.claims.jti == "" && t.claims.notBefore.None?
    ensures t.claims.issuedAt == Some(A.NumericDate(now))
    ensures t.claims.expiresAt == Some(A.NumericDate(now) + A.Day)
  {
    A.Token(A.HS256, A.Claims(userId, email, role, Some(A.NumericDate(now + A.Day)), Some(A.NumericDate(now)), None,
                              "", "", ""), Secret)
  }

  /** The key callback: the secret, for any method. */
  function KeyFor(t: A.Token): (k: A.Bytes)
    ensures k == Secret
  {
    Secret
  }

  /** ValidateToken: the claims of a well-formed, correctly signed, current token. */
  function ValidateToken(text: string, now: Time, decode: string -> Option<A.Token>): (r: Option<A.Claims>)
    ensures r.Some? <==>
      decode(text).Some? && A.Verifies(decode(text).value, Secret) && A.TimesValid(decode(text).value.claims, now)
    ensures r.Some? ==> r.value == decode(text).value.claims
  {
    match decode(text)
    case None => None
    case Some(t) =>
      var k := KeyFor(t);
      if A.Verifies(t, k) && A.TimesValid(t.claims, now) then Some(t.claims) else None
  }

  /**
   * Handing the secret to a non-HMAC method gains an attacker nothing:
   * those methods refuse a byte-slice key, so this validation accepts
   * exactly the tokens the gateway's own, which checks the method first,
   * accepts with the same secret.
   */
  lemma SameTokensAccepted(text: string, now: Time, decode: string -> Option<A.Token>)
    ensures ValidateToken(text, now, decode) == A.ValidateToken(text, now, Secret, decode)
  {
  }

  /**
   * A generated token is accepted until exactly 24 hours after its issue
   * second; without a not-before claim it is also accepted at any earlier
   * time.
   */
  lemma GeneratedTokenWindow(userId: string, email: string, role: string, issued: Time,
                             text: string, now: Time, decode: string -> Option<A.Token>)
    requires decode(text) == Some(GenerateToken(userId, email, role, issued))
    ensures ValidateToken(text, now, decode).Some? <==> now < A.NumericDate(issued) + A.Day
  {
  }

  const Public: set<string> := {"/api/login", "/health"}

  /** AuthMiddleware's decision. */
  function Gate(r: A.Request, now: Time, decode: string -> Option<A.Token>): (d: A.Decision)
    ensures d.PassThrough? <==> r.verb == "OPTIONS" || r.path in Public
    ensures !d.PassThrough? && r.authorization == "" ==> d == A.Unauthorized("Authorization header is required")
    ensures d.Authorized? <==>
      !(r.verb == "OPTIONS" || r.path in Public)
      && A.BearerToken(r.authorization).Some?
      && ValidateToken(A.BearerToken(r.authorization).value, now, decode).Some?
    ensures d.Authorized? ==> d.claims == ValidateToken(A.BearerToken(r.authorization).value, now, decode).value
  {
    if r.verb == "OPTIONS" || r.path in Public then A.PassThrough
    else if r.authorization == "" then A.Unauthorized("Authorization header is required")
    else match A.BearerToken(r.authorization)
      case None => A.Unauthorized("Invalid authorization format")
      case Some(text) =>
        match ValidateToken(text, now, decode)
        case None => A.Unauthorized("Invalid token")
        case Some(c) => A.Authorized(c)
  }

  /**
   * Registration is behind the gate here: a POST /api/register without a
   * token is refused, where the later gateway lets it through.
   */
  lemma RegisterNeedsToken(now: Time, secret: A.Bytes, decode: string -> Option<A.Token>)
    ensures Gate(A.Request("POST", "/api/register", ""), now, decode).Unauthorized?
    ensures A.Gate(A.Request("POST", "/api/register", ""), now, secret, decode).PassThrough?
  {
    assert "/api/register" !in Public by {
      assert "/api/register" != "/api/login" && "/api/register" != "/health";
    }
  }
}
