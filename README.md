# API gateway core, modelled in Dafny

This project models the request-handling core of a FastAPI API gateway:

- the per-service circuit breakers;
- the fixed-window rate limiter (per IP address, per user, per tenant);
- service discovery: health records, probing, first-match routing by path prefix and readiness;
- the static service registry and default settings;
- the checks applied to a decoded JWT and the claims read from it;
- the error envelope and the status-to-error-code map;
- the decisions of the correlation-id, authentication, rate-limit and error-handling middlewares;
- the catch-all proxy route and the service client it forwards through;
- the `/health`, `/healthz` and `/ready` endpoints;
- the admin gate, the rate-limit report and the hot reload of the limits.

Each source module becomes one Dafny module:

| Dafny file | module | models |
|---|---|---|
| `common.dfy` | `Common` | Python values used throughout: `Option`, JSON, truthiness, `dict.get`, `or`, `str(int)` |
| `config.dfy` | `Config` | default settings and the seven-entry service registry |
| `circuit_breaker.dfy` | `CircuitBreakers` | `CircuitBreaker` and `CircuitBreakerService` |
| `rate_limit.dfy` | `RateLimiting` | `RateLimitService` |
| `service_discovery.dfy` | `Discovery` | `ServiceHealth` and `ServiceDiscovery` |
| `jwt.dfy` | `Jwt` | `JWTService` after decoding |
| `errors.dfy` | `Errors` | `ErrorCode` and `ErrorService` |
| `middleware.dfy` | `Middleware` | the middlewares that decide something |
| `proxy.dfy` | `Proxy` | `proxy_request` and `ServiceClient.forward_request` |
| `health_routes.dfy` | `HealthRoutes` | the health routes |
| `admin.dfy` | `Admin` | the admin gate and the rate-limit admin routes |

**State-changing objects are classes.** Their methods change fields in place:

- `CircuitBreaker` and `CircuitBreakerService`;
- `RateLimitService`;
- `ServiceDiscovery`;
- the per-request `RequestState`.

Each method is proved against a pure step function, such as `Admit`, `Success`, `Failure`, `Decide`, `CheckAll`, `ProbeUpdate` or `Served`. The lemmas then state what the gateway promises about those functions. For example:

- a closed breaker opens after exactly the threshold number of consecutive failures;
- a fresh rate-limit window admits exactly `limit` requests;
- a header value written for an integer reads back as that integer;
- `/ready` is decided by the four critical services alone.

**Time.** Time is a whole number of seconds `now`, passed in. The current time in response bodies comes in as text `isoNow`. Stored times are integer seconds: the breaker's last failure time, the health-check time, and the rate-limit window start and reset in reports. The rate-limit reset header and detail carry decimal seconds.

**Injected parameters.** The token decoder, the HTTP client, the health probe and the random correlation id are parameters.

**Where the model follows the code.** In three places the code's behaviour is not what its own structure suggests: a registered authz service, dedicated 502 and 504 branches, and gateway-set identity headers. The model follows the code:

- **Routing is first match in table order.** The prefix "/api/v1/auth" also matches every "/api/v1/authz..." path. So the authorization service is never routed to (`Discovery.AuthzShadowedByAuth`).
- **Every forwarding failure becomes a 500.** The service client already turns timeouts and connection errors into HTTP exceptions, so the proxy's own 504 and 502 branches are unreachable. Every forwarding failure, a timeout included, answers 500 "Internal server error" and counts as one breaker failure (`Proxy.TransportFailuresAre500`, `Proxy.ServedOutcomes`).
- **Inbound identity headers are forwarded alongside the gateway's.** The inbound headers arrive with lower-case names, and the gateway adds `X-User-Id`, `X-Tenant-Id` and `X-Correlation-Id` in mixed case. So an inbound `x-user-id` is forwarded alongside the gateway's own header instead of being replaced (`Proxy.ForwardHeaders`).

**Other code-level behaviour that is modelled.**

- When every rate-limit scope passes and both a user and a tenant id are present, the remaining count and reset time reported are those of the tenant check (`RateLimiting.CheckAllPassReport`).
- A half-open breaker admits `half_open_max_calls + 1` calls after the recovery timeout, because the call that makes the transition is not counted (`CircuitBreakers.OpenRecoveryAdmissions`).

## Model

| member | source | states |
|---|---|---|
| Common.Get | app/services/jwt_service.py:82-102 | `d.get(key)`: the stored value when the key is present, null otherwise |
| Common.Or | app/services/error_service.py:87-92 | Python `a or b`: `a` when truthy, else `b` |
| Common.DecimalString | app/middleware.py:226 | `str(n)` is non-empty and starts with '-' exactly when n is negative |
| Common.NaturalDigitsRoundTrip | app/middleware.py:226 | the decimal digits written for a natural number read back as that number |
| Common.DecimalStringRoundTrip | app/middleware.py:226-227 | every integer written as a header value reads back as the same integer |
| Config.Names | app/config.py:93-143 | the registry's service names, one per entry, in table order |
| Config.RegistryShape | app/config.py:93-143 | the shipped registry has exactly seven services in declaration order, unique names, every health path "/health" |
| Config.RegistryCriticality | app/config.py:93-143 | with `critical` defaulting to true, exactly auth, authz, profile and loan are critical |
| Config.RegistryPrefixes | app/config.py:93-143 | every prefix is under "/api/v1/", prefixes are pairwise distinct, and the auth prefix is a proper prefix of the authz prefix |
| CircuitBreakers.StateValueRoundTrip | app/services/circuit_breaker_service.py:12-17 | each state's string value reads back as that state |
| CircuitBreakers.DefaultConfig | app/config.py:71-73 | breakers start with threshold 5, recovery timeout 60 s and 3 half-open calls |
| CircuitBreakers.InitialInv | app/services/circuit_breaker_service.py:23-48 | a new breaker (closed, all counters zero) satisfies the breaker invariant |
| CircuitBreakers.Admit | app/services/circuit_breaker_service.py:50-82 | closed always admits unchanged; a denial changes nothing; counters and last failure time are kept; closedness is kept; the invariant is preserved |
| CircuitBreakers.Success | app/services/circuit_breaker_service.py:84-101 | open is unchanged; closed resets the failure count; half-open either stays half-open or closes with every counter zeroed; never opens; keeps the invariant |
| CircuitBreakers.Failure | app/services/circuit_breaker_service.py:103-123 | stamps the failure time; never leaves the breaker half-open; stays closed only by counting one more failure; open only restamps; keeps the invariant |
| CircuitBreakers.ConsecutiveFailuresOpen | app/services/circuit_breaker_service.py:103-123 | from a clean closed breaker, k failures keep it closed with count k below the threshold and open it with count = threshold from then on |
| CircuitBreakers.HalfOpenAdmissions | app/services/circuit_breaker_service.py:75-80 | a half-open breaker with c calls counted admits exactly min(n, max - c) of n further queries and stays half-open |
| CircuitBreakers.OpenRecoveryAdmissions | app/services/circuit_breaker_service.py:60-80 | an open breaker denies everything before the recovery timeout and, after it, admits exactly min(n, max + 1) of n queries |
| CircuitBreakers.OpenStaysDenied | app/services/circuit_breaker_service.py:60-73 | before the recovery timeout no query is admitted and the breaker is unchanged |
| CircuitBreakers.HalfOpenRecovery | app/services/circuit_breaker_service.py:84-97 | a half-open breaker closes, all counters zeroed, on exactly the max-th success and stays half-open before that |
| CircuitBreakers.CircuitBreaker.constructor | app/services/circuit_breaker_service.py:23-48 | a new breaker is closed with zero counters and no failure time |
| CircuitBreakers.CircuitBreaker.Call | app/services/circuit_breaker_service.py:50-82 | the admission decision and new fields are those of `Admit`; the invariant is kept |
| CircuitBreakers.CircuitBreaker.RecordSuccess | app/services/circuit_breaker_service.py:84-101 | the new fields are those of `Success`; the invariant is kept |
| CircuitBreakers.CircuitBreaker.RecordFailure | app/services/circuit_breaker_service.py:103-123 | the new fields are those of `Failure`; the invariant is kept |
| CircuitBreakers.CircuitBreaker.GetState | app/services/circuit_breaker_service.py:125-140 | the report carries the name and counters, and its state string reads back as the current state |
| CircuitBreakers.CircuitBreakerService.constructor | app/services/circuit_breaker_service.py:145-161 | a new service has no breakers |
| CircuitBreakers.CircuitBreakerService.GetBreaker | app/services/circuit_breaker_service.py:163-179 | returns the existing breaker, or creates and registers a fresh closed one; no other breaker changes |
| CircuitBreakers.CircuitBreakerService.IsCallAllowed | app/services/circuit_breaker_service.py:181-191 | the answer and the named breaker's new state are those of `Admit` on its prior (or initial) state; the other breakers are unchanged |
| CircuitBreakers.CircuitBreakerService.RecordSuccess | app/services/circuit_breaker_service.py:193-200 | only the named breaker changes, by `Success` |
| CircuitBreakers.CircuitBreakerService.RecordFailure | app/services/circuit_breaker_service.py:202-209 | only the named breaker changes, by `Failure` at `now` |
| CircuitBreakers.CircuitBreakerService.GetAllStates | app/services/circuit_breaker_service.py:211-217 | one report per breaker created so far, each with its service name, a state string that reads back as its state, both counters and the last failure time |
| RateLimiting.Lookup | app/services/rate_limit_service.py:52-58 | the stored window for a key, None exactly when absent |
| RateLimiting.Decide | app/services/rate_limit_service.py:36-75 | allowed iff there is no entry, the window has expired, or the count is below the limit; a new or expired key opens a window of count 1 at `now`; otherwise the count increments in the same window; remaining = limit - count; a refusal changes nothing and reports 0; reset = window start + window; the count never passes the limit |
| RateLimiting.WindowAdmits | app/services/rate_limit_service.py:36-75 | within one window, a key with c counted admits exactly limit - c more requests and keeps its window start |
| RateLimiting.ExactlyLimitPerWindow | app/services/rate_limit_service.py:36-75 | a fresh or expired key admits exactly `limit` of the requests within the window opened by the first one |
| RateLimiting.ScopeKeysDistinct | app/services/rate_limit_service.py:77-113 | user, tenant and ip keys never collide, and each scope's key names one id |
| RateLimiting.Apply | app/services/rate_limit_service.py:36-75 | a check only ever touches its own key, and a refusal leaves the storage unchanged |
| RateLimiting.DefaultLimits | app/config.py:43-45 | 1000 per user, 100000 per tenant and 10000 per IP per minute |
| RateLimiting.CheckAllAdmission | app/services/rate_limit_service.py:115-155 | a request passes iff every present scope admits it on its own entry; a refusal names the first refusing scope in ip, user, tenant order and reports 0 remaining |
| RateLimiting.CheckAllShortCircuits | app/services/rate_limit_service.py:115-155 | an IP refusal changes nothing; a user refusal has counted only the IP and leaves the tenant entry alone; a pass has counted the tenant |
| RateLimiting.CheckAllPassReport | app/services/rate_limit_service.py:149-155 | on a pass: no user id gives 0 and `now`; a user id alone gives the user check's figures; a user and a tenant id give the tenant check's figures |
| RateLimiting.Unexpired | app/services/rate_limit_service.py:191-208 | exactly the entries still inside their 60-second window, unchanged |
| RateLimiting.CleanupUnobservable | app/services/rate_limit_service.py:191-208 | dropping expired entries never changes a later 60-second check's verdict or stored entry |
| RateLimiting.ResetGivesFirstRequest | app/services/rate_limit_service.py:180-189 | after a reset, the next check on that key is a first request |
| RateLimiting.RateLimitService.constructor | app/services/rate_limit_service.py:15-34 | the given limits and empty storage |
| RateLimiting.RateLimitService.CheckRateLimit | app/services/rate_limit_service.py:36-75 | verdict and stored entry are those of `Decide`; limits unchanged |
| RateLimiting.RateLimitService.CheckUserRateLimit | app/services/rate_limit_service.py:77-87 | `Apply` on the "user:" key with the per-user limit |
| RateLimiting.RateLimitService.CheckTenantRateLimit | app/services/rate_limit_service.py:89-101 | `Apply` on the "tenant:" key with the per-tenant limit |
| RateLimiting.RateLimitService.CheckIpRateLimit | app/services/rate_limit_service.py:103-113 | `Apply` on the "ip:" key with the per-IP limit |
| RateLimiting.RateLimitService.CheckAllLimits | app/services/rate_limit_service.py:115-155 | outcome and new storage are those of `CheckAll` |
| RateLimiting.RateLimitService.GetRateLimitStatus | app/services/rate_limit_service.py:157-178 | None exactly for an absent key, else its count and a window from its start to start + 60 |
| RateLimiting.RateLimitService.ResetRateLimit | app/services/rate_limit_service.py:180-189 | removes exactly that key |
| RateLimiting.RateLimitService.ExpiredKeys | app/services/rate_limit_service.py:197-200 | the loop collects exactly the keys whose window has expired |
| RateLimiting.RateLimitService.CleanupExpired | app/services/rate_limit_service.py:191-208 | storage becomes exactly the unexpired entries |
| Discovery.NewHealth | app/services/service_discovery.py:17-23 | a new record is "unknown" with no check time, latency or error, and zero failures |
| Discovery.ProbeUpdate | app/services/service_discovery.py:71-134 | a 200 answer makes the record healthy with zero failures and no error; any other outcome adds one failure and is degraded below 3, unhealthy from 3; latency recorded on an answer; the error text set |
| Discovery.FailureStreak | app/services/service_discovery.py:106-134 | a streak of failed probes adds its length to the failure count and is unhealthy iff the total reaches 3 |
| Discovery.SuccessRestores | app/services/service_discovery.py:99-102 | one successful last probe restores a healthy record with zero failures |
| Discovery.FindEntry | app/services/service_discovery.py:144-154 | finds an entry iff one has that name, and with unique names it is that one |
| Discovery.FirstMatch | app/services/service_discovery.py:156-169 | the first entry in table order whose prefix starts the path; None iff no prefix does |
| Discovery.AuthzShadowedByAuth | app/services/service_discovery.py:156-169 | under the shipped table every "/api/v1/authz" path goes to auth-service, and authz-service is never chosen |
| Discovery.OwnPrefixRoutes | app/services/service_discovery.py:156-169 | every other service receives exactly the paths under its own prefix |
| Discovery.NonCriticalIrrelevant | app/services/service_discovery.py:215-226 | the record of a non-critical service never changes the readiness verdict |
| Discovery.ServiceDiscovery.constructor | app/services/service_discovery.py:29-42 | one fresh record per registry entry, filed under its name |
| Discovery.ServiceDiscovery.CheckServiceHealth | app/services/service_discovery.py:71-134 | unknown name: false, nothing changes; otherwise only that record changes, by `ProbeUpdate` on the probe of url + health path, and the answer is whether it succeeded |
| Discovery.ServiceDiscovery.GetServiceUrl | app/services/service_discovery.py:144-154 | the url of the named entry, None iff unregistered |
| Discovery.ServiceDiscovery.GetServiceByPath | app/services/service_discovery.py:156-169 | (name, url) of the first matching entry, None iff no prefix matches |
| Discovery.ServiceDiscovery.IsServiceHealthy | app/services/service_discovery.py:171-181 | true iff a record exists and says healthy |
| Discovery.ServiceDiscovery.IsServiceCritical | app/services/service_discovery.py:183-193 | true iff registered and critical (defaulting to critical) |
| Discovery.ServiceDiscovery.AreCriticalServicesHealthy | app/services/service_discovery.py:215-226 | the loop's answer is true iff every critical entry has a healthy record |
| Discovery.ServiceDiscovery.GetAllHealthStatus | app/services/service_discovery.py:195-213 | one report per record with its name, status string, last check time, latency, error and failure count |
| Jwt.ExpSeconds | app/services/jwt_service.py:41-44 | an integer `exp` is its seconds, a boolean is 0 or 1, anything else cannot be converted |
| Jwt.ValidateToken | app/services/jwt_service.py:27-63 | accepts only a decoded payload with a truthy `user_id`; a truthy integer `exp` in the past rejects; a non-numeric truthy `exp` rejects; no `exp` means no expiry check |
| Jwt.GetUserId | app/services/jwt_service.py:82-91 | `user_id` when truthy, else `sub` |
| Jwt.GetTenantId | app/services/jwt_service.py:93-102 | `tenant_id` as is, null when absent |
| Jwt.GetRoles | app/services/jwt_service.py:104-116 | a string becomes a one-element list, a list is kept, anything else is empty |
| Jwt.IsTokenNearExpiry | app/services/jwt_service.py:118-137 | false without a truthy `exp`; raises on a non-numeric one; else whether `exp` falls within the threshold |
| Jwt.NotNearExpiryIsUnexpired | app/services/jwt_service.py:27-63 | a payload not near expiry for a non-negative threshold is accepted iff it has a truthy `user_id` |
| Jwt.AcceptedTokenNearExpiryDefined | app/services/jwt_service.py:118-137 | on an accepted token the near-expiry check never raises and `exp` lies no earlier than `now` |
| Jwt.ClaimText | app/services/rate_limit_service.py:77-145 | how `check_all_limits` treats an identity claim: a falsy claim is skipped; a non-empty string is used as is, a non-zero integer as its decimal text (which reads back as the integer), `True` as "True"; list and object claims are the model's simplification and are treated as absent |
| Errors.MapHttpStatusToErrorCode | app/services/error_service.py:43-64 | each listed status maps to its code, 502 and 503 both to SERVICE_UNAVAILABLE, every other status to INTERNAL_SERVER_ERROR |
| Errors.StatusMapOnto | app/services/error_service.py:43-64 | every error code is the image of some status |
| Errors.ValuesDistinct | app/models/response.py:10-20 | distinct codes have distinct string values |
| Errors.CreateErrorResponse | app/services/error_service.py:15-41 | success false, null data, the given error, a "Z"-suffixed timestamp, and a correlation id exactly when one is given |
| Errors.NestedMessage | app/services/error_service.py:88 | the nested `error.message`, null when either level is missing, raising when `error` is not an object |
| Errors.TranslateServiceError | app/services/error_service.py:66-96 | the code follows the status; a non-object body gets the default message; a non-object `error` raises |
| Errors.TranslateMessageChain | app/services/error_service.py:85-92 | for an object body: the first truthy of `error.message`, `message` and `detail` is the message when it is a string and raises otherwise; with none truthy, including an `error` object without a message, the message is "An error occurred" |
| Middleware.RequestState.constructor | app/routes/proxy.py:69-75 | a new request carries no correlation id, identity, roles or payload |
| Middleware.CorrelationId | app/middleware.py:29 | an inbound id is reused, otherwise the fresh one |
| Middleware.CorrelationDispatch | app/middleware.py:26-38 | the same id is stored on the request and echoed on the response; nothing else changes |
| Middleware.ExclusionLists | app/middleware.py:75-84 | every rate-exempt path is auth-exempt; no "/api/" path is rate-exempt; login and register are auth-exempt |
| Middleware.LookalikePathsArePublic | app/middleware.py:89 | exemption is by prefix, so "/healthcheck" and "/docs-x" are exempt too |
| Middleware.RunLength | app/middleware.py:114 | the length of the leading non-space run |
| Middleware.Words | app/middleware.py:114 | `str.split()` yields non-empty space-free words |
| Middleware.RunLengthOfWord | app/middleware.py:114 | a space-free word followed by a space or nothing is exactly one run |
| Middleware.WordThen | app/middleware.py:114 | such a word splits off as the first word |
| Middleware.TwoWordsSplit | app/middleware.py:114 | "a b" splits into exactly [a, b] |
| Middleware.AsciiLower | app/middleware.py:115 | same length, upper-case ASCII letters lowered, everything else kept |
| Middleware.ParseBearer | app/middleware.py:114-127 | a token exactly when the header splits into two words and the first lower-cases to "bearer"; the token is the second word |
| Middleware.BearerRoundTrip | app/middleware.py:114-127 | any spelling of "bearer", one space and a space-free token read back as that token |
| Middleware.Authenticate | app/middleware.py:86-158 | public iff an exempt prefix or no token service; missing header, bad format and bad token each reject with their message exactly in their case; acceptance yields the claims read from the validated payload |
| Middleware.JwtAuthDispatch | app/middleware.py:86-158 | a rejection answers 401 with the error envelope; acceptance records the identity on the request; otherwise the request state is unchanged |
| Middleware.RateHeaders | app/middleware.py:212-227 | exactly the two rate headers, each reading back as its integer |
| Middleware.RateLimitDispatch | app/middleware.py:174-229 | exempt paths or no limiter pass through untouched; otherwise storage follows `CheckAll` on the identity claims as `ClaimText` renders them and the client host, a refusal answers 429 naming the scope with remaining 0, a pass adds the headers |
| Middleware.LoginLimitedByAddressOnly | app/middleware.py:75-84 | login and register skip authentication but not rate limiting, so only the client address key is counted or can refuse |
| Middleware.HandleErrors | app/middleware.py:255-301 | a completed response passes; an HTTP exception keeps its status and detail with the mapped code; anything else is a 500 with a fixed message |
| Proxy.ForwardRequest | app/clients/service_client.py:53-89 | a response is relayed; a timeout raises 504, a connection error 502 and anything else 500, each with its detail |
| Proxy.ForwardHeaders | app/routes/proxy.py:63-79 | the inbound headers minus "host", plus the correlation and identity headers when truthy; nothing when an identity claim cannot be sent as text |
| Proxy.RequestBody | app/routes/proxy.py:81-95 | a body is sent only for POST, PUT and PATCH and only when non-empty |
| Proxy.Settle | app/routes/proxy.py:98-132 | a response is relayed with status, content, headers and content type; any raised exception becomes 500 "Internal server error" |
| Proxy.BuildRequest | app/routes/proxy.py:60-96 | url = service url + full path, the method and query kept, headers and body as above |
| Proxy.TransportFailuresAre500 | app/routes/proxy.py:98-132 | every transport failure, timeouts included, answers 500, never 502 or 504 |
| Proxy.CallOutcomeOnClosedBreaker | app/routes/proxy.py:98-132 | on a closed breaker a response resets the failure count and a failure adds one, opening at the threshold |
| Proxy.ServedOutcomes | app/routes/proxy.py:51-132 | a denial answers 503, sends nothing and leaves the breaker; an admitted call sends the built request and records exactly one success or failure |
| Proxy.ClosedBreakerForwards | app/routes/proxy.py:51-58 | a closed breaker always lets the request out |
| Proxy.RecordOutcome | app/routes/proxy.py:98-132 | one success for a response, one failure otherwise, on the named breaker only |
| Proxy.CallService | app/routes/proxy.py:51-132 | answer, request sent and breaker states are those of `Served` |
| Proxy.ProxyRequest | app/routes/proxy.py:19-132 | 503 without its collaborators, 404 naming the full path when no prefix matches, otherwise `Served` on the first matching service and the request built for it |
| HealthRoutes.Health | app/routes/health.py:17-30 | "healthy", a "Z"-suffixed timestamp and the time since start |
| HealthRoutes.Healthz | app/routes/health.py:33-39 | always {"status": "OK"} |
| HealthRoutes.Ready | app/routes/health.py:42-87 | ready with no services when discovery is absent; otherwise ready iff all critical services are healthy, 200 or 503 accordingly, one entry per record with its fields |
| HealthRoutes.ShippedReadiness | app/services/service_discovery.py:215-226 | with the shipped registry, ready iff auth, authz, profile and loan each have a healthy record |
| HealthRoutes.NotReadyBeforeFirstProbe | app/services/service_discovery.py:36-42 | a freshly started gateway is not ready |
| Admin.VerifyAdminRole | app/routes/admin.py:20-34 | passes iff the request carries a truthy user id; otherwise 401 "Authentication required" |
| Admin.StatusRows | app/routes/admin.py:88-118 | the user row then the tenant row, each present iff its id is given and its key stored, with that scope's current limit and the stored window |
| Admin.GetRateLimitStatus | app/routes/admin.py:75-118 | 401 without a caller, raises without a limiter, else the report rows; nothing changes |
| Admin.UpdateRateLimitConfig | app/routes/admin.py:121-142 | replaces the three limits and keeps every stored window; 401 without a caller changes nothing |
| Admin.LoweredLimitRefusesOpenWindow | app/routes/admin.py:132-137 | after lowering a limit, a key whose open window already reached it is refused until the window ends |
| Admin.RaisedLimitContinuesCount | app/routes/admin.py:132-137 | after raising a limit, an open window continues its count up to the new limit |

## Left out

- Network I/O is not modelled. The HTTP client (`httpx`) is a function from the outgoing request to what the transport did, and the health probe is a function from the URL to its outcome.
- Token decoding and signature checks (`jose.jwt.decode`) are not modelled. The decoder is a parameter.
- `JWTService.extract_claims` is left out: the gateway never calls it.
- Concurrency is not modelled. Each method that holds an `asyncio.Lock` is one atomic step.
- The background health-check loop is left out. So are `start_health_checks`, `stop_health_checks`, `check_all_services` (a `gather` of `check_service_health`) and `close`. Each probe is one `CheckServiceHealth` call.
- Time is whole seconds; sub-second precision and `datetime` range limits are not modelled. One `now` is used per request.
- ISO-8601 rendering is not modelled. The current time in bodies comes in as text `isoNow`. Stored times (breaker failure time, health-check time, rate-limit window start and reset in reports) are integer seconds where the source reports `isoformat()` text. The rate-limit reset header and detail carry decimal seconds.
- JSON floating-point numbers are not represented in `Common.Json`, so a float `exp` claim or a float field in a response body is outside the model.
- The random UUID for a fresh correlation id is a parameter.
- Logging is left out, including `ErrorService.log_error` and the logging lines in every method.
- `RequestLoggingMiddleware` and `SecurityHeadersMiddleware` are left out. They only log and add constant headers.
- The middleware ordering and the application wiring in `main.py` are not part of this model.
- `routes.py`, the discovery routes and `get_gateway_status` are not part of this model.
- Jwt.ClaimText: a truthy list or object identity claim is treated as absent by the rate limiter, where the source would format its Python `repr` into the storage key. String, integer and boolean claims are rendered as the source renders them.
- Discovery.ServiceDiscovery: health records are values stored in a map. Updating a record replaces its map entry, which is the same thing because no record is shared.
- CircuitBreakers.CircuitBreakerService.Valid: it does not carry the per-breaker invariant `Inv`. That invariant is proved for each breaker's step functions and methods.
- Proxy.ProxyRequest: the client is called once per request with what the route built. httpx's own validation is modelled only as the refusal of a non-text identity header.
- CircuitBreakers.DefaultConfig: the breaker settings (`BreakerConfig`) are natural numbers. Negative thresholds, timeouts or half-open budgets, which the integer settings would accept, are not modelled.
