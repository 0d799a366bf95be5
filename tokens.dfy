/**
 * The credential codec of the auth service (src/api/modules/auth/service.py:30-70):
 * JSON Web Tokens (RFC 7519) signed with HS256 (section 3.2 of RFC 7518).
 * Only the claims are modelled; the signature is reduced to a flag saying
 * whether it checks out under the process-wide secret.
 */
module Tokens {
  import opened Wrappers

  /** A hex digest of an encoded token; the digest function is a parameter of the database model. */
  type Digest = string

  /** Defaults of JWT_ACCESS_TOKEN_EXPIRE_MINUTES and JWT_REFRESH_TOKEN_EXPIRE_DAYS. */
  const ACCESS_TOKEN_EXPIRE_MINUTES: int := 15
  const REFRESH_TOKEN_EXPIRE_DAYS: int := 30

  /** Lifetimes in seconds. */
  const ACCESS_TTL: int := ACCESS_TOKEN_EXPIRE_MINUTES * 60
  const REFRESH_TTL: int := REFRESH_TOKEN_EXPIRE_DAYS * 24 * 60 * 60

  /** Values of the "type" claim. */
  const ACCESS: string := "access"
  const REFRESH: string := "refresh"

  /** The payload: "user_id" (possibly absent), "type", "iat" and "exp" in whole seconds. */
  datatype Claims = Claims(userId: Option<int>, tokenType: string, iat: int, exp: int)

  /** An encoded token: its claims and whether its signature verifies. */
  datatype Token = Token(claims: Claims, signatureOk: bool)

  /** `payload.get("user_id")` used as a condition: an absent claim and 0 are both false. */
  predicate HasSubject(c: Claims) {
    c.userId.Some? && c.userId.value != 0
  }

  /** `jwt.encode` under the server's secret. */
  function Sign(c: Claims): Token {
    Token(c, true)
  }

  /** generate_tokens: an access token and a refresh token for one user, issued at `now`. */
  function GenerateTokens(userId: int, now: int): (pair: (Token, Token))
    ensures pair.0.signatureOk && pair.1.signatureOk
    ensures pair.0.claims.userId == Some(userId) && pair.1.claims.userId == Some(userId)
    ensures pair.0.claims.tokenType == ACCESS && pair.1.claims.tokenType == REFRESH
    ensures pair.0.claims.iat == now && pair.1.claims.iat == now
    ensures pair.0.claims.exp == now + ACCESS_TTL && pair.1.claims.exp == now + REFRESH_TTL
    ensures pair.0.claims.exp < pair.1.claims.exp
  {
    (Sign(Claims(Some(userId), ACCESS, now, now + ACCESS_TTL)),
     Sign(Claims(Some(userId), REFRESH, now, now + REFRESH_TTL)))
  }

  /**
   * verify_token: the payload when the signature verifies, the token has not
   * expired (the JWT library rejects exp <= now) and its type is the expected
   * one; None in every other case, never an exception.
   */
  function VerifyToken(t: Token, expected: string, now: int): (payload: Option<Claims>)
    ensures payload.Some? <==> t.signatureOk && now < t.claims.exp && t.claims.tokenType == expected
    ensures payload.Some? ==> payload.value == t.claims
  {
    if !t.signatureOk then None
    else if t.claims.exp <= now then None
    else if t.claims.tokenType != expected then None
    else Some(t.claims)
  }

  /** A freshly issued pair verifies each as its own type, until its own expiry, and never as the other type. */
  lemma GeneratedTokensVerify(userId: int, issuedAt: int, now: int)
    ensures var (access, refresh) := GenerateTokens(userId, issuedAt);
      && (VerifyToken(access, ACCESS, now).Some? <==> now < issuedAt + ACCESS_TTL)
      && (VerifyToken(refresh, REFRESH, now).Some? <==> now < issuedAt + REFRESH_TTL)
      && VerifyToken(access, REFRESH, now).None?
      && VerifyToken(refresh, ACCESS, now).None?
  {
  }

  /**
   * Tokens carry no nonce: two refresh tokens for one user are the same token
   * exactly when they were issued in the same second.
   */
  lemma RefreshTokensEqualIffSameSecond(userId: int, t1: int, t2: int)
    ensures GenerateTokens(userId, t1).1 == GenerateTokens(userId, t2).1 <==> t1 == t2
  {
    if GenerateTokens(userId, t1).1 == GenerateTokens(userId, t2).1 {
      assert GenerateTokens(userId, t1).1.claims.iat == t1;
    }
  }
}
