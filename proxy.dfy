/** The catch-all proxy route: find the owning service by path prefix, ask
    its circuit breaker, build the outgoing request, hand it to the HTTP
    client and record the outcome on the breaker. The network is an input:
    `client` maps the outgoing request to what the transport did with it. */
module Proxy {
  import opened Common
  import opened Config
  import opened CircuitBreakers
  import opened Discovery
  import Middleware

  type Bytes = seq<bv8>

  /** A downstream response. Header names are lower-case, as the HTTP
      client reports them. */
  datatype Upstream = Upstream(status: int, content: Bytes, headers: map<string, string>)

  /** What the transport did with a request: a response (of any status), a
      timeout, a connection error, or any other exception. */
  datatype Transport =
    | Received(response: Upstream)
    | TimedOut
    | ConnectFailed(message: string)
    | OtherFailure(message: string)

  /** What `ServiceClient.forward_request` ends with: the response, or an
      HTTPException with a status and a detail. No transport error leaves
      it unwrapped. */
  datatype ForwardResult = Forwarded(response: Upstream) | ForwardRaised(status: int, detail: string)

  /** `ServiceClient.forward_request`: relays a response, and turns a
      timeout into 504, a connection error into 502 and anything else into
      500. */
  function ForwardRequest(t: Transport): (r: ForwardResult)
    ensures t.Received? <==> r.Forwarded?
    ensures t.Received? ==> r.response == t.response
    ensures t.TimedOut? ==> r == ForwardRaised(504, "Request to downstream service timed out")
    ensures t.ConnectFailed? ==> r == ForwardRaised(502, "Failed to connect to downstream service: " + t.message)
    ensures t.OtherFailure? ==> r == ForwardRaised(500, "Internal error: " + t.message)
  {
    match t
    case Received(response) => Forwarded(response)
    case TimedOut => ForwardRaised(504, "Request to downstream service timed out")
    case ConnectFailed(message) => ForwardRaised(502, "Failed to connect to downstream service: " + message)
    case OtherFailure(message) => ForwardRaised(500, "Internal error: " + message)
  }

  /** The request the gateway sends downstream. */
  datatype Outgoing = Outgoing(httpMethod: string, url: string, headers: map<string, string>,
                               params: map<string, string>, body: Option<Bytes>)

  /** What the proxy route answers: the relayed response, or an HTTP error
      with status and detail. */
  datatype ProxyResult =
    | Relayed(status: int, content: Bytes, headers: map<string, string>, mediaType: Option<string>)
    | Failed(status: int, detail: string)

  const API_PREFIX := "/api/v1/"
  const UNAVAILABLE := "Service unavailable"
  const INTERNAL_ERROR := "Internal server error"
  /** The client rejects a header value that is not text before sending. */
  const HEADER_TYPE_ERROR := "Internal error: header value must be str or bytes"

  const CORRELATION_HEADER := "X-Correlation-Id"
  const USER_HEADER := "X-User-Id"
  const TENANT_HEADER := "X-Tenant-Id"

  /** An identity claim the client can send as a header: absent or falsy
      (then not sent), or text. */
  predicate Sendable(v: Json) {
    !Truthy(v) || v.JStr?
  }

  /** Lines 64-79 of the route: the inbound headers without "host", then
      the correlation id and the caller's identity when present. Header names
      are compared exactly, so an inbound lower-case "x-user-id" travels
      beside the added "X-User-Id". None when a present identity claim is
      not text, which the client refuses. */
  function ForwardHeaders(inbound: map<string, string>, correlationId: Option<string>,
                          userId: Json, tenantId: Json): (r: Option<map<string, string>>)
    ensures r.Some? <==> Sendable(userId) && Sendable(tenantId)
    ensures r.Some? ==> "host" !in r.value
    ensures r.Some? ==> forall k :: k in r.value <==>
              || (k in inbound && k != "host")
              || (k == CORRELATION_HEADER && Present(correlationId))
              || (k == USER_HEADER && Truthy(userId))
              || (k == TENANT_HEADER && Truthy(tenantId))
    ensures r.Some? && Present(correlationId) ==> r.value[CORRELATION_HEADER] == correlationId.value
    ensures r.Some? && Truthy(userId) ==> r.value[USER_HEADER] == userId.s
    ensures r.Some? && Truthy(tenantId) ==> r.value[TENANT_HEADER] == tenantId.s
    ensures r.Some? ==> forall k :: k in inbound && k != "host" && k !in {CORRELATION_HEADER, USER_HEADER, TENANT_HEADER}
                                    ==> r.value[k] == inbound[k]
  {
    if !Sendable(userId) || !Sendable(tenantId) then None
    else
      var headers := inbound - {"host"};
      var headers := if Present(correlationId) then headers[CORRELATION_HEADER := correlationId.value] else headers;
      var headers := if Truthy(userId) then headers[USER_HEADER := userId.s] else headers;
      var headers := if Truthy(tenantId) then headers[TENANT_HEADER := tenantId.s] else headers;
      Some(headers)
  }

  /** The body sent: read only for POST, PUT and PATCH, and an empty body
      is sent as none. */
  function RequestBody(httpMethod: string, body: Bytes): (r: Option<Bytes>)
    ensures r.Some? <==> httpMethod in ["POST", "PUT", "PATCH"] && body != []
    ensures r.Some? ==> r.value == body
  {
    if httpMethod in ["POST", "PUT", "PATCH"] && body != [] then Some(body) else None
  }

  /** The try/except around forwarding: a response is relayed with its
      status and headers and its content type as media type; every
      exception that reaches the route is an HTTPException from the client
      and lands in the generic branch. */
  function Settle(f: ForwardResult): (r: ProxyResult)
    ensures f.Forwarded? <==> r.Relayed?
    ensures f.Forwarded? ==> r.status == f.response.status && r.content == f.response.content
                             && r.headers == f.response.headers
    ensures f.Forwarded? ==> (r.mediaType.Some? <==> "content-type" in f.response.headers)
    ensures f.Forwarded? && "content-type" in f.response.headers ==> r.mediaType.value == f.response.headers["content-type"]
    ensures f.ForwardRaised? ==> r == Failed(500, INTERNAL_ERROR)
  {
    match f
    case Forwarded(u) =>
      Relayed(u.status, u.content, u.headers, if "content-type" in u.headers then Some(u.headers["content-type"]) else None)
    case ForwardRaised(_, _) => Failed(500, INTERNAL_ERROR)
  }

  /** Lines 61-96 of the route: the request sent to the service at `url`,
      or None when the client refuses its headers. */
  function BuildRequest(url: string, fullPath: string, httpMethod: string, inbound: map<string, string>,
                        query: map<string, string>, body: Bytes, correlationId: Option<string>,
                        userId: Json, tenantId: Json): (r: Option<Outgoing>)
    ensures r.Some? <==> Sendable(userId) && Sendable(tenantId)
    ensures r.Some? ==> r.value.url == url + fullPath && r.value.httpMethod == httpMethod && r.value.params == query
    ensures r.Some? ==> Some(r.value.headers) == ForwardHeaders(inbound, correlationId, userId, tenantId)
    ensures r.Some? ==> r.value.body == RequestBody(httpMethod, body)
  {
    match ForwardHeaders(inbound, correlationId, userId, tenantId)
    case None => None
    case Some(h) => Some(Outgoing(httpMethod, url + fullPath, h, query, RequestBody(httpMethod, body)))
  }

  /** The client's outcome for the request the route built: the request is
      refused before sending when its headers cannot be encoded. */
  function ClientOutcome(client: Outgoing -> Transport, sent: Option<Outgoing>): ForwardResult {
    if sent.None? then ForwardRaised(500, HEADER_TYPE_ERROR) else ForwardRequest(client(sent.value))
  }

  /** Every transport failure, a timeout or a refused connection included,
      answers 500 "Internal server error"; any response, 5xx included, is
      relayed with its own status. The route never answers 502 or 504. */
  lemma TransportFailuresAre500(t: Transport)
    ensures !t.Received? ==> Settle(ForwardRequest(t)) == Failed(500, INTERNAL_ERROR)
    ensures t.Received? ==> Settle(ForwardRequest(t)).status == t.response.status
    ensures Settle(ForwardRequest(t)).Failed? ==> Settle(ForwardRequest(t)).status !in {502, 504}
  {
  }

  /** The breaker bookkeeping after an admitted call: one success for a
      relayed response, one failure otherwise. */
  function AfterCall(cfg: BreakerConfig, admitted: BreakerState, f: ForwardResult, now: int): BreakerState {
    if f.Forwarded? then Success(cfg, admitted) else Failure(cfg, admitted, now)
  }

  /** An admitted call that fails in a closed breaker counts toward the
      threshold, and one that gets any response resets the count. */
  lemma CallOutcomeOnClosedBreaker(cfg: BreakerConfig, b: BreakerState, f: ForwardResult, now: int)
    requires b.state == Closed
    ensures f.Forwarded? ==> AfterCall(cfg, Admit(cfg, b, now).next, f, now) == b.(failureCount := 0)
    ensures f.ForwardRaised? ==>
              var n := AfterCall(cfg, Admit(cfg, b, now).next, f, now);
              && n.failureCount == b.failureCount + 1 && n.lastFailureTime == Some(now)
              && (n.state == Open <==> b.failureCount + 1 >= cfg.failureThreshold)
  {
  }

  /** What the route does once the service is known, as a value: the
      answer, the request sent (if any) and the breaker's new state, from
      the breaker's prior state and the request the route would build. */
  function Served(cfg: BreakerConfig, prior: BreakerState, name: string, client: Outgoing -> Transport,
                  request: Option<Outgoing>, now: int): (ProxyResult, Option<Outgoing>, BreakerState)
  {
    var admission := Admit(cfg, prior, now);
    if !admission.allowed then
      (Failed(503, "Service " + name + " is currently unavailable"), None, admission.next)
    else
      var outcome := ClientOutcome(client, request);
      (Settle(outcome), request, AfterCall(cfg, admission.next, outcome, now))
  }

  /** A denied call sends nothing and leaves the breaker as it was; an
      admitted one sends the built request and records exactly one outcome,
      so every failure, a timeout included, answers 500 and counts as one
      breaker failure. */
  lemma ServedOutcomes(cfg: BreakerConfig, prior: BreakerState, name: string, client: Outgoing -> Transport,
                       request: Option<Outgoing>, now: int)
    ensures var (r, sent, next) := Served(cfg, prior, name, client, request, now);
            && (!Admit(cfg, prior, now).allowed ==>
                  r.Failed? && r.status == 503 && sent.None? && next == prior)
            && (Admit(cfg, prior, now).allowed ==> sent == request)
            && (Admit(cfg, prior, now).allowed && r.Failed? ==>
                  r == Failed(500, INTERNAL_ERROR)
                  && next == Failure(cfg, Admit(cfg, prior, now).next, now))
            && (Admit(cfg, prior, now).allowed && r.Relayed? ==>
                  request.Some? && client(request.value).Received?
                  && r.status == client(request.value).response.status
                  && next == Success(cfg, Admit(cfg, prior, now).next))
  {
  }

  /** A closed breaker always lets the call through. */
  lemma ClosedBreakerForwards(cfg: BreakerConfig, prior: BreakerState, name: string, client: Outgoing -> Transport,
                              request: Option<Outgoing>, now: int)
    requires prior.state == Closed && request.Some?
    ensures Served(cfg, prior, name, client, request, now).1 == request
  {
  }

  /** Lines 98-132 of the route: one success for a relayed response, one
      failure for any exception. */
  method RecordOutcome(cb: CircuitBreakerService, name: string, outcome: ForwardResult, now: int)
    requires cb.Valid()
    modifies cb, cb.Repr
    ensures cb.Valid() && fresh(cb.Repr - old(cb.Repr))
    ensures cb.States == old(cb.States)[name := AfterCall(cb.config, old(cb.StateOf(name)), outcome, now)]
  {
    if outcome.Forwarded? {
      cb.RecordSuccess(name);
    } else {
      cb.RecordFailure(name, now);
    }
  }

  /** Lines 52-132 of the route, once the service is known: breaker
      admission, then the client's outcome for the built request and one
      recorded success or failure. */
  method CallService(cb: CircuitBreakerService, client: Outgoing -> Transport, name: string,
                     request: Option<Outgoing>, now: int)
    returns (r: ProxyResult, sent: Option<Outgoing>)
    requires cb.Valid()
    modifies cb, cb.Repr
    ensures cb.Valid() && fresh(cb.Repr - old(cb.Repr))
    ensures var served := Served(cb.config, old(cb.StateOf(name)), name, client, request, now);
            r == served.0 && sent == served.1 && cb.States == old(cb.States)[name := served.2]
  {
    var allowed := cb.IsCallAllowed(name, now);
    if !allowed {
      return Failed(503, "Service " + name + " is currently unavailable"), None;
    }
    sent := request;
    var outcome := ClientOutcome(client, sent);
    RecordOutcome(cb, name, outcome, now);
    r := Settle(outcome);
  }

  /** `proxy_request`. */
  method ProxyRequest(disc: ServiceDiscovery?, cb: CircuitBreakerService?, client: Option<Outgoing -> Transport>,
                      st: Middleware.RequestState, httpMethod: string, path: string,
                      inbound: map<string, string>, query: map<string, string>, body: Bytes, now: int)
    returns (r: ProxyResult, sent: Option<Outgoing>)
    requires cb != null ==> cb.Valid()
    modifies cb, if cb != null then cb.Repr else {}
    ensures cb != null ==> cb.Valid() && fresh(cb.Repr - old(cb.Repr))
    ensures disc == null || cb == null || client.None? ==>
              r == Failed(503, UNAVAILABLE) && sent.None? && (cb != null ==> cb.States == old(cb.States))
    ensures disc != null && cb != null && client.Some? && FirstMatch(disc.registry, API_PREFIX + path).None? ==>
              && r == Failed(404, "No service found for path: " + API_PREFIX + path)
              && sent.None? && cb.States == old(cb.States)
    ensures disc != null && cb != null && client.Some? && FirstMatch(disc.registry, API_PREFIX + path).Some? ==>
              var e := disc.registry[FirstMatch(disc.registry, API_PREFIX + path).value];
              var request := BuildRequest(e.url, API_PREFIX + path, httpMethod, inbound, query, body,
                                          st.correlationId, st.userId, st.tenantId);
              var served := Served(cb.config, old(cb.StateOf(e.name)), e.name, client.value, request, now);
              r == served.0 && sent == served.1 && cb.States == old(cb.States)[e.name := served.2]
  {
    if disc == null || cb == null || client.None? {
      return Failed(503, UNAVAILABLE), None;
    }
    var fullPath := API_PREFIX + path;
    var route := disc.GetServiceByPath(fullPath);
    if route.None? {
      return Failed(404, "No service found for path: " + fullPath), None;
    }
    var (name, url) := route.value;
    var request := BuildRequest(url, fullPath, httpMethod, inbound, query, body,
                                st.correlationId, st.userId, st.tenantId);
    r, sent := CallService(cb, client.value, name, request, now);
  }
}
