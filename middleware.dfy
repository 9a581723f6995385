/** The decisions the request middlewares take: correlation ids, public
    paths, the Authorization header (the Bearer scheme of section 2.1 of
    RFC 6750, scheme name matched without regard to case), rate-limit
    headers, and the mapping of escaped exceptions to error responses.
    Each `dispatch` either calls the next handler (adding response headers)
    or answers itself. */
module Middleware {
  import opened Common
  import opened Errors
  import Jwt
  import RateLimiting

  /** The per-request state the middlewares write (`request.state`).
      Attributes never written read as None. */
  class RequestState {
    var correlationId: Option<string>
    var userId: Json
    var tenantId: Json
    var roles: seq<Json>
    var jwtPayload: Option<Dict>

    constructor ()
      ensures correlationId.None? && userId == JNull && tenantId == JNull
      ensures roles == [] && jwtPayload.None?
    {
      correlationId := None;
      userId := JNull;
      tenantId := JNull;
      roles := [];
      jwtPayload := None;
    }
  }

  /** A response a middleware produces itself. */
  datatype Reply = Reply(status: int, body: ErrorResponse, headers: map<string, string>)

  /** What a dispatch does: call the next handler and add these headers to
      its response, or answer without calling it. */
  datatype Dispatch = CallNext(responseHeaders: map<string, string>) | Respond(reply: Reply)

  // ---------------------------------------------------------------- correlation id

  /** `headers.get("X-Correlation-Id", fresh)`: an inbound value is reused
      verbatim, whatever its form, even when empty. */
  function CorrelationId(inbound: Option<string>, freshId: string): (id: string)
    ensures inbound.Some? ==> id == inbound.value
    ensures inbound.None? ==> id == freshId
  {
    inbound.GetOr(freshId)
  }

  /** `CorrelationIdMiddleware.dispatch`: the same id goes into the request
      state and onto the response. */
  method CorrelationDispatch(st: RequestState, inbound: Option<string>, freshId: string) returns (d: Dispatch)
    modifies st
    ensures st.correlationId == Some(CorrelationId(inbound, freshId))
    ensures d == CallNext(map["X-Correlation-Id" := CorrelationId(inbound, freshId)])
    ensures st.userId == old(st.userId) && st.tenantId == old(st.tenantId)
    ensures st.roles == old(st.roles) && st.jwtPayload == old(st.jwtPayload)
  {
    var id := CorrelationId(inbound, freshId);
    st.correlationId := Some(id);
    return CallNext(map["X-Correlation-Id" := id]);
  }

  // ---------------------------------------------------------------- public paths

  const AUTH_EXCLUDED_PATHS: seq<string> :=
    ["/health", "/healthz", "/ready", "/docs", "/redoc", "/openapi.json",
     "/api/v1/auth/login", "/api/v1/auth/register"]

  const RATE_EXCLUDED_PATHS: seq<string> :=
    ["/health", "/healthz", "/ready", "/docs", "/redoc", "/openapi.json"]

  /** `any(path.startswith(p) for p in prefixes)`. */
  predicate StartsWithAny(prefixes: seq<string>, path: string) {
    exists i :: 0 <= i < |prefixes| && prefixes[i] <= path
  }

  /** Everything exempt from rate limiting is exempt from authentication;
      the login and register endpoints are unauthenticated but still rate
      limited, and no "/api/" path escapes rate limiting. */
  lemma ExclusionLists(path: string)
    ensures StartsWithAny(RATE_EXCLUDED_PATHS, path) ==> StartsWithAny(AUTH_EXCLUDED_PATHS, path)
    ensures "/api/" <= path ==> !StartsWithAny(RATE_EXCLUDED_PATHS, path)
    ensures "/api/v1/auth/login" <= path ==> StartsWithAny(AUTH_EXCLUDED_PATHS, path)
    ensures "/api/v1/auth/register" <= path ==> StartsWithAny(AUTH_EXCLUDED_PATHS, path)
  {
    if "/api/" <= path {
      forall i | 0 <= i < |RATE_EXCLUDED_PATHS|
        ensures !(RATE_EXCLUDED_PATHS[i] <= path)
      {
        assert RATE_EXCLUDED_PATHS[i][1] != path[1];
      }
    }
    if StartsWithAny(RATE_EXCLUDED_PATHS, path) {
      var i :| 0 <= i < |RATE_EXCLUDED_PATHS| && RATE_EXCLUDED_PATHS[i] <= path;
      assert AUTH_EXCLUDED_PATHS[i] == RATE_EXCLUDED_PATHS[i];
    }
    if "/api/v1/auth/login" <= path {
      assert AUTH_EXCLUDED_PATHS[6] <= path;
    }
    if "/api/v1/auth/register" <= path {
      assert AUTH_EXCLUDED_PATHS[7] <= path;
    }
  }

  /** The exclusion is a prefix test, so lookalike paths are public too. */
  lemma LookalikePathsArePublic()
    ensures StartsWithAny(AUTH_EXCLUDED_PATHS, "/healthcheck")
    ensures StartsWithAny(AUTH_EXCLUDED_PATHS, "/docs-x")
    ensures StartsWithAny(RATE_EXCLUDED_PATHS, "/healthcheck")
  {
    assert AUTH_EXCLUDED_PATHS[0] <= "/healthcheck";
    assert AUTH_EXCLUDED_PATHS[3] <= "/docs-x";
    assert RATE_EXCLUDED_PATHS[0] <= "/healthcheck";
  }

  // ---------------------------------------------------------------- Authorization header

  /** The characters Python's `str.split()` splits on. */
  predicate IsSpace(c: char) {
    || ('\U{0009}' <= c <= '\U{000D}') || ('\U{001C}' <= c <= '\U{0020}')
    || c == '\U{0085}' || c == '\U{00A0}' || c == '\U{1680}'
    || ('\U{2000}' <= c <= '\U{200A}') || c == '\U{2028}' || c == '\U{2029}'
    || c == '\U{202F}' || c == '\U{205F}' || c == '\U{3000}'
  }

  predicate NoSpace(w: string) {
    forall i :: 0 <= i < |w| ==> !IsSpace(w[i])
  }

  /** The length of the run of non-space characters `s` starts with. */
  function RunLength(s: string): (n: nat)
    ensures n <= |s| && NoSpace(s[..n])
    ensures n < |s| ==> IsSpace(s[n])
    decreases |s|
  {
    if s == [] || IsSpace(s[0]) then 0
    else
      var k := RunLength(s[1..]);
      assert s[..k + 1] == [s[0]] + s[1..][..k];
      k + 1
  }

  /** `s.split()`: the maximal runs of non-space characters, in order. */
  function Words(s: string): (ws: seq<string>)
    ensures forall i :: 0 <= i < |ws| ==> ws[i] != [] && NoSpace(ws[i])
    decreases |s|
  {
    if s == [] then []
    else if IsSpace(s[0]) then Words(s[1..])
    else
      var n := RunLength(s);
      [s[..n]] + Words(s[n..])
  }

  lemma {:induction false} RunLengthOfWord(w: string, rest: string)
    requires NoSpace(w)
    requires rest == [] || IsSpace(rest[0])
    ensures RunLength(w + rest) == |w|
    decreases |w|
  {
    if w != [] {
      assert (w + rest)[1..] == w[1..] + rest;
      RunLengthOfWord(w[1..], rest);
    }
  }

  /** A word followed by a space (or by nothing) splits off as one word. */
  lemma WordThen(w: string, rest: string)
    requires w != [] && NoSpace(w)
    requires rest == [] || IsSpace(rest[0])
    ensures Words(w + rest) == [w] + Words(rest)
  {
    RunLengthOfWord(w, rest);
    var s := w + rest;
    assert s[..|w|] == w && s[|w|..] == rest;
  }

  /** Splitting "a b" gives back the words a and b. */
  lemma TwoWordsSplit(a: string, b: string)
    requires a != [] && b != [] && NoSpace(a) && NoSpace(b)
    ensures Words(a + " " + b) == [a, b]
  {
    assert a + " " + b == a + (" " + b);
    WordThen(a, " " + b);
    assert (" " + b)[1..] == b;
    assert Words(" " + b) == Words(b);
    WordThen(b, []);
    assert b + [] == b;
  }

  /** ASCII lower-casing. No character outside ASCII lower-cases into one of
      the letters of "bearer", so comparing against it this way agrees with
      Python's `lower()`. */
  function AsciiLower(s: string): (r: string)
    ensures |r| == |s|
    ensures forall i :: 0 <= i < |s| ==> r[i] == (if 'A' <= s[i] <= 'Z' then (s[i] as int + 32) as char else s[i])
  {
    if s == [] then []
    else [if 'A' <= s[0] <= 'Z' then (s[0] as int + 32) as char else s[0]] + AsciiLower(s[1..])
  }

  /** The token of an Authorization header of the form "<scheme> <token>"
      with the scheme "bearer" in any case, else None. */
  function ParseBearer(header: string): (r: Option<string>)
    ensures r.Some? ==> r.value != [] && NoSpace(r.value)
    ensures r.Some? <==> |Words(header)| == 2 && AsciiLower(Words(header)[0]) == "bearer"
    ensures r.Some? ==> r.value == Words(header)[1]
  {
    var parts := Words(header);
    if |parts| != 2 || AsciiLower(parts[0]) != "bearer" then None
    else Some(parts[1])
  }

  /** Any spelling of the scheme, a single space and a token read back as
      that token. */
  lemma BearerRoundTrip(scheme: string, token: string)
    requires AsciiLower(scheme) == "bearer"
    requires token != [] && NoSpace(token)
    ensures ParseBearer(scheme + " " + token) == Some(token)
  {
    assert NoSpace(scheme) by {
      forall i | 0 <= i < |scheme| ensures !IsSpace(scheme[i]) {
        assert AsciiLower(scheme)[i] == "bearer"[i];
      }
    }
    TwoWordsSplit(scheme, token);
  }

  /** What the authentication middleware decides. */
  datatype AuthDecision =
    | Public
    | Rejected(message: string)
    | Authenticated(userId: Json, tenantId: Json, roles: seq<Json>, payload: Dict)

  const MISSING_HEADER := "Missing Authorization header"
  const BAD_HEADER_FORMAT := "Invalid Authorization header format"
  const BAD_TOKEN := "Invalid or expired JWT token"

  /** `JWTAuthMiddleware.dispatch` as a decision. `jwtConfigured` is whether
      a token service is installed, `decode` the token library. */
  function Authenticate(path: string, jwtConfigured: bool, authHeader: Option<string>,
                        decode: string -> Option<Dict>, now: int): (r: AuthDecision)
    ensures r.Public? <==> StartsWithAny(AUTH_EXCLUDED_PATHS, path) || !jwtConfigured
    ensures r == Rejected(MISSING_HEADER) <==> !r.Public? && !Present(authHeader)
    ensures r == Rejected(BAD_HEADER_FORMAT) <==> !r.Public? && Present(authHeader) && ParseBearer(authHeader.value).None?
    ensures r == Rejected(BAD_TOKEN) <==>
              !r.Public? && Present(authHeader) && ParseBearer(authHeader.value).Some?
              && Jwt.ValidateToken(decode(ParseBearer(authHeader.value).value), now).None?
    ensures r.Authenticated? ==>
              && Present(authHeader) && ParseBearer(authHeader.value).Some?
              && Some(r.payload) == Jwt.ValidateToken(decode(ParseBearer(authHeader.value).value), now)
              && r.userId == Jwt.GetUserId(r.payload) && Truthy(r.userId)
              && r.tenantId == Jwt.GetTenantId(r.payload) && r.roles == Jwt.GetRoles(r.payload)
  {
    if StartsWithAny(AUTH_EXCLUDED_PATHS, path) || !jwtConfigured then Public
    else if !Present(authHeader) then Rejected(MISSING_HEADER)
    else match ParseBearer(authHeader.value)
      case None => Rejected(BAD_HEADER_FORMAT)
      case Some(token) =>
        match Jwt.ValidateToken(decode(token), now)
        case None => Rejected(BAD_TOKEN)
        case Some(payload) =>
          Authenticated(Jwt.GetUserId(payload), Jwt.GetTenantId(payload), Jwt.GetRoles(payload), payload)
  }

  /** `JWTAuthMiddleware.dispatch`: reject with 401 without calling the
      handler, or record the caller's identity and call it. */
  method JwtAuthDispatch(st: RequestState, path: string, jwtConfigured: bool, authHeader: Option<string>,
                         decode: string -> Option<Dict>, now: int, isoNow: string) returns (d: Dispatch)
    modifies st
    ensures var a := Authenticate(path, jwtConfigured, authHeader, decode, now);
            && (a.Rejected? ==> d == Respond(Reply(401, CreateErrorResponse(Unauthorized, a.message, None,
                                                                           old(st.correlationId), isoNow), map[])))
            && (!a.Rejected? ==> d == CallNext(map[]))
            && (a.Authenticated? ==> st.userId == a.userId && st.tenantId == a.tenantId
                                     && st.roles == a.roles && st.jwtPayload == Some(a.payload))
            && (!a.Authenticated? ==> st.userId == old(st.userId) && st.tenantId == old(st.tenantId)
                                      && st.roles == old(st.roles) && st.jwtPayload == old(st.jwtPayload))
    ensures st.correlationId == old(st.correlationId)
  {
    var a := Authenticate(path, jwtConfigured, authHeader, decode, now);
    match a {
      case Public =>
        return CallNext(map[]);
      case Rejected(message) =>
        var body := CreateErrorResponse(Unauthorized, message, None, st.correlationId, isoNow);
        return Respond(Reply(401, body, map[]));
      case Authenticated(userId, tenantId, roles, payload) =>
        st.userId := userId;
        st.tenantId := tenantId;
        st.roles := roles;
        st.jwtPayload := Some(payload);
        return CallNext(map[]);
    }
  }

  // ---------------------------------------------------------------- rate limiting

  /** The two headers a rate-limited path carries; times are written as
      decimal epoch seconds. */
  function RateHeaders(remaining: int, resetAt: int): (h: map<string, string>)
    ensures h.Keys == {"X-Rate-Limit-Remaining", "X-Rate-Limit-Reset"}
    ensures ParseDecimal(h["X-Rate-Limit-Remaining"]) == Some(remaining)
    ensures ParseDecimal(h["X-Rate-Limit-Reset"]) == Some(resetAt)
  {
    DecimalStringRoundTrip(remaining);
    DecimalStringRoundTrip(resetAt);
    map["X-Rate-Limit-Remaining" := DecimalString(remaining), "X-Rate-Limit-Reset" := DecimalString(resetAt)]
  }

  /** `RateLimitMiddleware.dispatch`. The caller's identity comes from the
      request state (claims as `Jwt.ClaimText` renders them), the address
      from the connection. */
  method RateLimitDispatch(st: RequestState, path: string, svc: RateLimiting.RateLimitService?,
                           clientHost: Option<string>, now: int, isoNow: string) returns (d: Dispatch)
    modifies svc
    ensures StartsWithAny(RATE_EXCLUDED_PATHS, path) || svc == null ==>
              d == CallNext(map[]) && (svc != null ==> svc.storage == old(svc.storage))
    ensures svc != null ==> svc.CurrentLimits() == old(svc.CurrentLimits())
    ensures !StartsWithAny(RATE_EXCLUDED_PATHS, path) && svc != null ==>
              var (o, s) := RateLimiting.CheckAll(old(svc.storage), old(svc.CurrentLimits()),
                                                  Jwt.ClaimText(st.userId), Jwt.ClaimText(st.tenantId), clientHost, now);
              && svc.storage == s
              && (o.allowed ==> d == CallNext(RateHeaders(o.remaining, o.resetAt)))
              && (!o.allowed ==>
                    d == Respond(Reply(429, CreateErrorResponse(RateLimited, "Rate limit exceeded for " + o.limitType.Name(),
                                                                Some(map["reset_at" := JStr(DecimalString(o.resetAt))]),
                                                                st.correlationId, isoNow),
                                       RateHeaders(0, o.resetAt))))
  {
    if StartsWithAny(RATE_EXCLUDED_PATHS, path) || svc == null {
      return CallNext(map[]);
    }
    var o := svc.CheckAllLimits(Jwt.ClaimText(st.userId), Jwt.ClaimText(st.tenantId), clientHost, now);
    if !o.allowed {
      var body := CreateErrorResponse(RateLimited, "Rate limit exceeded for " + o.limitType.Name(),
                                      Some(map["reset_at" := JStr(DecimalString(o.resetAt))]),
                                      st.correlationId, isoNow);
      return Respond(Reply(429, body, RateHeaders(0, o.resetAt)));
    }
    return CallNext(RateHeaders(o.remaining, o.resetAt));
  }

  /** The login and register endpoints skip authentication, so no caller
      identity is recorded and the cascade limits them by address alone:
      only the address key can change, and only the address scope can
      refuse. */
  lemma LoginLimitedByAddressOnly(path: string, decode: string -> Option<Dict>, authHeader: Option<string>,
                                  storage: map<string, RateLimiting.Window>, limits: RateLimiting.Limits,
                                  clientHost: Option<string>, now: int)
    requires "/api/v1/auth/login" <= path || "/api/v1/auth/register" <= path
    ensures Authenticate(path, true, authHeader, decode, now) == Public
    ensures !StartsWithAny(RATE_EXCLUDED_PATHS, path)
    ensures var (o, s) := RateLimiting.CheckAll(storage, limits, Jwt.ClaimText(JNull), Jwt.ClaimText(JNull), clientHost, now);
            && o.limitType in {RateLimiting.IpLimit, RateLimiting.NoLimit}
            && (forall k :: k in s && k in storage && s[k] != storage[k] ==> Present(clientHost) && k == RateLimiting.IpKey(clientHost.value))
            && (forall k :: k in s ==> k in storage || (Present(clientHost) && k == RateLimiting.IpKey(clientHost.value)))
  {
    ExclusionLists(path);
    assert "/api/" <= path by {
      if "/api/v1/auth/login" <= path {
        assert "/api/" <= "/api/v1/auth/login";
      } else {
        assert "/api/" <= "/api/v1/auth/register";
      }
    }
  }

  // ---------------------------------------------------------------- error handling

  /** How the inner handler ended: with a response, with an HTTP exception
      (status and detail), or with any other exception. */
  datatype HandlerOutcome = Completed | HttpError(status: int, detail: string) | Crashed(message: string)

  const UNEXPECTED_MESSAGE := "An unexpected error occurred"

  /** `ErrorHandlingMiddleware.dispatch`: an HTTP exception keeps its status
      and takes its code from the status map; anything else becomes a 500
      with a fixed message (the exception text goes only to the log). */
  function HandleErrors(o: HandlerOutcome, correlationId: Option<string>, isoNow: string): (r: Option<Reply>)
    ensures o.Completed? <==> r.None?
    ensures o.HttpError? ==> r.value.status == o.status && r.value.body.error.code == MapHttpStatusToErrorCode(o.status)
                             && r.value.body.error.message == o.detail
    ensures o.Crashed? ==> r.value.status == 500 && r.value.body.error.code == InternalServerError
                           && r.value.body.error.message == UNEXPECTED_MESSAGE
    ensures r.Some? ==> r.value.body == CreateErrorResponse(r.value.body.error.code, r.value.body.error.message,
                                                            None, correlationId, isoNow)
  {
    match o
    case Completed => None
    case HttpError(status, detail) =>
      Some(Reply(status, CreateErrorResponse(MapHttpStatusToErrorCode(status), detail, None, correlationId, isoNow), map[]))
    case Crashed(_) =>
      Some(Reply(500, CreateErrorResponse(InternalServerError, UNEXPECTED_MESSAGE, None, correlationId, isoNow), map[]))
  }
}
