/** The admin routes: the gate every admin route depends on, the report of
    a user's and a tenant's rate-limit windows, and the hot reload of the
    per-minute limits on the shared rate limiter. A missing rate limiter
    makes a route raise, which the error middleware turns into a 500. */
module Admin {
  import opened Common
  import opened RateLimiting

  const AUTH_REQUIRED := "Authentication required"
  const CONFIG_UPDATED := "Rate limit configuration updated"

  /** What the admin gate decides: the caller passes with their user id, or
      the route answers 401. */
  datatype Gate = Admitted(userId: Json) | Refused(status: int, detail: string)

  /** `verify_admin_role`: any caller with a user id passes; no role is
      consulted. */
  function VerifyAdminRole(userId: Json): (r: Gate)
    ensures r.Admitted? <==> Truthy(userId)
    ensures r.Admitted? ==> r.userId == userId
    ensures r.Refused? ==> r.status == 401 && r.detail == AUTH_REQUIRED
  {
    if !Truthy(userId) then Refused(401, AUTH_REQUIRED) else Admitted(userId)
  }

  /** `RateLimitConfig`: the three per-minute limits and per-endpoint
      overrides. */
  datatype RateLimitConfig = RateLimitConfig(perUser: int, perTenant: int, perIp: int, overrides: Dict)

  /** One row of the rate-limit report; times are seconds. */
  datatype RateLimitStatus = RateLimitStatus(key: string, currentUsage: nat, limit: int,
                                             resetAt: int, windowStartAt: int)

  /** What an admin route answers. */
  datatype AdminReply =
    | Updated(message: string, config: RateLimitConfig)
    | Report(rateLimits: seq<RateLimitStatus>)
    | Denied(status: int, detail: string)
    | Raised(message: string)

  /** A stored key's report row. */
  function Row(storage: map<string, Window>, key: string, limit: int): RateLimitStatus
    requires key in storage
  {
    RateLimitStatus(key, storage[key].count, limit, storage[key].start + WINDOW_SECONDS, storage[key].start)
  }

  /** The report: the user's row, then the tenant's, each only when its id
      is present and non-empty and its key is currently stored, each with
      the current limit of its scope. */
  function StatusRows(storage: map<string, Window>, limits: Limits, user: Option<string>,
                      tenant: Option<string>): (rows: seq<RateLimitStatus>)
    ensures |rows| == (if Present(user) && UserKey(user.value) in storage then 1 else 0)
                      + (if Present(tenant) && TenantKey(tenant.value) in storage then 1 else 0)
    ensures forall i :: 0 <= i < |rows| ==>
              && rows[i].key in storage
              && rows[i].currentUsage == storage[rows[i].key].count
              && rows[i].windowStartAt == storage[rows[i].key].start
              && rows[i].resetAt == rows[i].windowStartAt + WINDOW_SECONDS
    ensures Present(user) && UserKey(user.value) in storage ==>
              rows[0].key == UserKey(user.value) && rows[0].limit == limits.perUser
    ensures Present(tenant) && TenantKey(tenant.value) in storage ==>
              rows[|rows| - 1].key == TenantKey(tenant.value) && rows[|rows| - 1].limit == limits.perTenant
  {
    var userRows := if Present(user) && UserKey(user.value) in storage
                    then [Row(storage, UserKey(user.value), limits.perUser)] else [];
    var tenantRows := if Present(tenant) && TenantKey(tenant.value) in storage
                      then [Row(storage, TenantKey(tenant.value), limits.perTenant)] else [];
    userRows + tenantRows
  }

  /** `get_rate_limit_status` behind the admin gate. Nothing changes. */
  method GetRateLimitStatus(svc: RateLimitService?, callerId: Json, user: Option<string>, tenant: Option<string>)
    returns (r: AdminReply)
    ensures !Truthy(callerId) ==> r == Denied(401, AUTH_REQUIRED)
    ensures Truthy(callerId) && svc == null ==> r.Raised?
    ensures Truthy(callerId) && svc != null ==>
              r == Report(StatusRows(svc.storage, svc.CurrentLimits(), user, tenant))
  {
    var gate := VerifyAdminRole(callerId);
    if gate.Refused? {
      return Denied(gate.status, gate.detail);
    }
    if svc == null {
      return Raised("AttributeError");
    }
    var results: seq<RateLimitStatus> := [];
    if Present(user) {
      var key := UserKey(user.value);
      var status := svc.GetRateLimitStatus(key);
      if status.Some? {
        results := results + [RateLimitStatus(key, status.value.currentUsage, svc.perUser,
                                              status.value.resetAt, status.value.windowStartAt)];
      }
    }
    if Present(tenant) {
      var key := TenantKey(tenant.value);
      var status := svc.GetRateLimitStatus(key);
      if status.Some? {
        results := results + [RateLimitStatus(key, status.value.currentUsage, svc.perTenant,
                                              status.value.resetAt, status.value.windowStartAt)];
      }
    }
    return Report(results);
  }

  /** `update_rate_limit_config` behind the admin gate: the three limits are
      replaced in place, the overrides are ignored, and the stored windows
      and counts are kept. */
  method UpdateRateLimitConfig(svc: RateLimitService?, callerId: Json, config: RateLimitConfig)
    returns (r: AdminReply)
    modifies svc
    ensures svc != null ==> svc.storage == old(svc.storage)
    ensures !Truthy(callerId) ==> r == Denied(401, AUTH_REQUIRED)
    ensures !Truthy(callerId) && svc != null ==> svc.CurrentLimits() == old(svc.CurrentLimits())
    ensures Truthy(callerId) && svc == null ==> r.Raised?
    ensures Truthy(callerId) && svc != null ==>
              && r == Updated(CONFIG_UPDATED, config)
              && svc.CurrentLimits() == Limits(config.perUser, config.perTenant, config.perIp)
  {
    var gate := VerifyAdminRole(callerId);
    if gate.Refused? {
      return Denied(gate.status, gate.detail);
    }
    if svc == null {
      return Raised("AttributeError");
    }
    svc.perUser := config.perUser;
    svc.perTenant := config.perTenant;
    svc.perIp := config.perIp;
    return Updated(CONFIG_UPDATED, config);
  }

  /** A reload does not reset counts: a key whose open window already holds
      at least the new limit is refused until the window ends, and the
      refusal leaves the storage as it was. */
  lemma LoweredLimitRefusesOpenWindow(storage: map<string, Window>, key: string, limit: int, now: int)
    requires key in storage && !Expired(storage[key], WINDOW_SECONDS, now)
    requires storage[key].count >= limit
    ensures !Apply(storage, key, limit, now).0.allowed
    ensures Apply(storage, key, limit, now).1 == storage
    ensures Apply(storage, key, limit, now).0.resetAt == storage[key].start + WINDOW_SECONDS
  {
  }

  /** A raised limit lets an open window take more requests at once,
      continuing its count. */
  lemma RaisedLimitContinuesCount(storage: map<string, Window>, key: string, limit: int, now: int)
    requires key in storage && !Expired(storage[key], WINDOW_SECONDS, now)
    requires storage[key].count < limit
    ensures Apply(storage, key, limit, now).0.allowed
    ensures Apply(storage, key, limit, now).0.remaining == limit - storage[key].count - 1
    ensures Apply(storage, key, limit, now).1[key] == Window(storage[key].count + 1, storage[key].start)
  {
  }
}
