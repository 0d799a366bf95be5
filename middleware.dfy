/**
 * The request gate (src/middleware/auth_middleware.py): an allow/deny
 * decision over the HTTP method, the path and the auth_token cookie, whose
 * one write is the authenticated user id on the request state.
 */
module Middleware {
  import opened Wrappers
  import opened Tokens
  import opened Strings

  const MSG_MISSING_COOKIE: string := "Missing authentication cookie"
  const MSG_INVALID_ACCESS: string := "Invalid or expired access token"

  /** The gate's configuration: exact public paths and public path prefixes (absent arguments become empty). */
  datatype Gate = Gate(publicPaths: set<string>, publicPrefixes: seq<string>)

  /** The gate as main.py installs it. */
  const AppGate: Gate := Gate({"/", "/health", "/openapi.json", "/docs", "/redoc"}, ["/auth"])

  /** Either the request goes on to the route, with the user id written to the request state if any, or it is answered here. */
  datatype Verdict = Forward(identity: Option<int>) | Deny(status: int, detail: string)

  /** str.startswith with a tuple of prefixes. */
  function AnyPrefix(path: string, prefixes: seq<string>): (r: bool)
    ensures r <==> exists i :: 0 <= i < |prefixes| && StartsWith(path, prefixes[i])
  {
    if prefixes == [] then false
    else if StartsWith(path, prefixes[0]) then true
    else
      var rest := AnyPrefix(path, prefixes[1..]);
      assert forall i :: 1 <= i < |prefixes| ==> prefixes[i] == prefixes[1..][i - 1];
      rest
  }

  /** _is_public_path: an exact public path, or a plain string prefix match. */
  function IsPublicPath(g: Gate, path: string): (r: bool)
    ensures r <==> path in g.publicPaths || exists i :: 0 <= i < |g.publicPrefixes| && StartsWith(path, g.publicPrefixes[i])
  {
    if path in g.publicPaths then true
    else if |g.publicPrefixes| > 0 && AnyPrefix(path, g.publicPrefixes) then true
    else false
  }

  /** The decision chain of dispatch; `authCookie` is None when the cookie is missing or empty. */
  function Decide(g: Gate, httpMethod: string, path: string, authCookie: Option<Token>, now: int): Verdict {
    if httpMethod == "OPTIONS" then Forward(None)
    else if IsPublicPath(g, path) then Forward(None)
    else if authCookie.None? then Deny(401, MSG_MISSING_COOKIE)
    else
      var payload := VerifyToken(authCookie.value, ACCESS, now);
      if payload.None? || !HasSubject(payload.value) then Deny(401, MSG_INVALID_ACCESS)
      else Forward(payload.value.userId)
  }

  /** request.state: the slot the gate writes the authenticated user id into. */
  class RequestState {
    var userId: Option<int>

    constructor()
      ensures userId.None?
    {
      userId := None;
    }
  }

  /** dispatch: decides, and on an authenticated forward records the user id on the request state. */
  method Dispatch(g: Gate, httpMethod: string, path: string, authCookie: Option<Token>, now: int, state: RequestState)
    returns (verdict: Verdict)
    modifies state
    ensures verdict == Decide(g, httpMethod, path, authCookie, now)
    ensures state.userId == (if verdict.Forward? && verdict.identity.Some? then verdict.identity else old(state.userId))
  {
    if httpMethod == "OPTIONS" {
      return Forward(None);
    }
    if IsPublicPath(g, path) {
      return Forward(None);
    }
    if authCookie.None? {
      return Deny(401, MSG_MISSING_COOKIE);
    }
    var payload := VerifyToken(authCookie.value, ACCESS, now);
    if payload.None? || !HasSubject(payload.value) {
      return Deny(401, MSG_INVALID_ACCESS);
    }
    state.userId := payload.value.userId;
    verdict := Forward(payload.value.userId);
  }

  /** Pre-flight requests are always forwarded, unauthenticated. */
  lemma OptionsAlwaysForwarded(g: Gate, path: string, authCookie: Option<Token>, now: int)
    ensures Decide(g, "OPTIONS", path, authCookie, now) == Forward(None)
  {
  }

  /** A public path is forwarded without looking at the cookie, whatever it holds. */
  lemma PublicPathSkipsCookie(g: Gate, httpMethod: string, path: string, c1: Option<Token>, c2: Option<Token>, now: int)
    requires path in g.publicPaths || exists i :: 0 <= i < |g.publicPrefixes| && StartsWith(path, g.publicPrefixes[i])
    ensures Decide(g, httpMethod, path, c1, now) == Decide(g, httpMethod, path, c2, now) == Forward(None)
  {
  }

  /** The prefix test is plain string prefixing: under "/auth", "/auth/login" and also "/authx" are public. */
  lemma PrefixIsPlainString()
    ensures IsPublicPath(AppGate, "/auth/login") && IsPublicPath(AppGate, "/authx")
    ensures !IsPublicPath(AppGate, "/videos/upload") && !IsPublicPath(AppGate, "/au")
  {
    assert StartsWith("/auth/login", "/auth");
    assert StartsWith("/authx", "/auth");
    assert !StartsWith("/videos/upload", "/auth") by { assert "/videos/upload"[1] != "/auth"[1]; }
  }

  /** Without prefixes, exactly the listed paths are public. */
  lemma NoPrefixesOnlyExactPaths(paths: set<string>, path: string)
    ensures IsPublicPath(Gate(paths, []), path) <==> path in paths
  {
  }

  /**
   * On a protected path the request is forwarded exactly when the cookie is
   * an access token that verifies now and names a non-zero user, and that
   * user id is what is recorded.
   */
  lemma ProtectedPathAdmitsIff(g: Gate, httpMethod: string, path: string, authCookie: Option<Token>, now: int)
    requires httpMethod != "OPTIONS" && !IsPublicPath(g, path)
    ensures var v := Decide(g, httpMethod, path, authCookie, now);
      && (authCookie.None? <==> v == Deny(401, MSG_MISSING_COOKIE))
      && (v.Forward? <==>
          authCookie.Some? && authCookie.value.signatureOk && now < authCookie.value.claims.exp
          && authCookie.value.claims.tokenType == ACCESS && HasSubject(authCookie.value.claims))
      && (v.Forward? ==> v.identity == authCookie.value.claims.userId && v.identity.value != 0)
  {
  }

  /** A refresh token in the auth_token cookie never opens a protected path. */
  lemma RefreshTokenIsNotAccess(g: Gate, httpMethod: string, path: string, t: Token, now: int)
    requires httpMethod != "OPTIONS" && !IsPublicPath(g, path)
    requires t.claims.tokenType == REFRESH
    ensures Decide(g, httpMethod, path, Some(t), now) == Deny(401, MSG_INVALID_ACCESS)
  {
  }

  /** An access token issued by login, register or refresh opens protected paths for ACCESS_TTL seconds, as its user. */
  lemma IssuedAccessTokenAdmits(g: Gate, httpMethod: string, path: string, userId: int, issuedAt: int, now: int)
    requires httpMethod != "OPTIONS" && !IsPublicPath(g, path) && userId != 0
    ensures now < issuedAt + ACCESS_TTL ==>
      Decide(g, httpMethod, path, Some(GenerateTokens(userId, issuedAt).0), now) == Forward(Some(userId))
    ensures issuedAt + ACCESS_TTL <= now ==>
      Decide(g, httpMethod, path, Some(GenerateTokens(userId, issuedAt).0), now) == Deny(401, MSG_INVALID_ACCESS)
  {
  }
}
