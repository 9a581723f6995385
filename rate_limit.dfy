/** Fixed-window rate limiting: a map from key to (request count, window
    start), checked per IP address, per user and per tenant. Each locked
    method of the source is one atomic step; `now` is the time in seconds. */
module RateLimiting {
  import opened Common
  import Config

  /** The default window of `check_rate_limit`, and the window that
      `get_rate_limit_status` and `cleanup_expired` always assume. */
  const WINDOW_SECONDS: int := 60

  /** One stored entry: how many requests were counted since `start`. */
  datatype Window = Window(count: nat, start: int)

  /** What `check_rate_limit` returns: (allowed, remaining, reset_at). */
  datatype Verdict = Verdict(allowed: bool, remaining: int, resetAt: int)

  /** A verdict together with the entry stored for the key afterwards. */
  datatype Check = Check(verdict: Verdict, stored: Window)

  function Lookup(storage: map<string, Window>, key: string): (w: Option<Window>)
    ensures w.Some? <==> key in storage
    ensures w.Some? ==> w.value == storage[key]
  {
    if key in storage then Some(storage[key]) else None
  }

  /** Whether a stored window no longer applies at `now`; the end itself
      still belongs to the window. */
  predicate Expired(w: Window, window: int, now: int) {
    now > w.start + window
  }

  /** `check_rate_limit` on the entry found for the key (None when absent). */
  function Decide(prior: Option<Window>, limit: int, window: int, now: int): (r: Check)
    ensures r.verdict.allowed <==> prior.None? || Expired(prior.value, window, now) || prior.value.count < limit
    ensures r.verdict.allowed && (prior.None? || Expired(prior.value, window, now)) ==>
              r.stored == Window(1, now)
    ensures r.verdict.allowed && prior.Some? && !Expired(prior.value, window, now) ==>
              r.stored == Window(prior.value.count + 1, prior.value.start)
    ensures r.verdict.allowed ==> r.verdict.remaining == limit - r.stored.count
    ensures !r.verdict.allowed ==> r.verdict.remaining == 0 && r.stored == prior.value
    ensures r.verdict.resetAt == r.stored.start + window
    ensures limit >= 1 && (prior.Some? ==> prior.value.count <= limit) ==> r.stored.count <= limit
  {
    match prior
    case None => Check(Verdict(true, limit - 1, now + window), Window(1, now))
    case Some(w) =>
      if Expired(w, window, now) then Check(Verdict(true, limit - 1, now + window), Window(1, now))
      else if w.count >= limit then Check(Verdict(false, 0, w.start + window), w)
      else Check(Verdict(true, limit - (w.count + 1), w.start + window), Window(w.count + 1, w.start))
  }

  /** `n` requests on one key, at the times in `times`, with a fixed limit:
      how many were allowed, and the entry afterwards. */
  function Run(prior: Option<Window>, limit: int, window: int, times: seq<int>): (nat, Option<Window>)
    decreases |times|
  {
    if times == [] then (0, prior)
    else
      var c := Decide(prior, limit, window, times[0]);
      var rest := Run(Some(c.stored), limit, window, times[1..]);
      ((if c.verdict.allowed then 1 else 0) + rest.0, rest.1)
  }

  function Min(a: int, b: int): int {
    if a <= b then a else b
  }

  /** Within one window (every time no later than its end), a key that has
      already counted `c <= limit` requests admits exactly `limit - c` more,
      keeps its window start and never counts past the limit. */
  lemma {:induction false} WindowAdmits(w: Window, limit: int, window: int, times: seq<int>)
    requires w.count <= limit
    requires forall i :: 0 <= i < |times| ==> times[i] <= w.start + window
    ensures Run(Some(w), limit, window, times).0 == Min(|times|, limit - w.count)
    ensures Run(Some(w), limit, window, times).1 == Some(Window(Min(w.count + |times|, limit), w.start))
    decreases |times|
  {
    if times != [] {
      var c := Decide(Some(w), limit, window, times[0]);
      assert forall i :: 0 <= i < |times[1..]| ==> times[1..][i] <= c.stored.start + window by {
        forall i | 0 <= i < |times[1..]| ensures times[1..][i] <= c.stored.start + window {
          assert times[1..][i] == times[i + 1];
        }
      }
      WindowAdmits(c.stored, limit, window, times[1..]);
    }
  }

  /** A fresh key (or one whose window has expired) admits exactly `limit`
      of the requests made within the window opened by the first one. */
  lemma ExactlyLimitPerWindow(prior: Option<Window>, limit: int, window: int, times: seq<int>)
    requires limit >= 1 && times != []
    requires prior.None? || Expired(prior.value, window, times[0])
    requires forall i :: 0 <= i < |times| ==> times[i] <= times[0] + window
    ensures Run(prior, limit, window, times).0 == Min(|times|, limit)
  {
    var c := Decide(prior, limit, window, times[0]);
    assert c.stored == Window(1, times[0]);
    assert forall i :: 0 <= i < |times[1..]| ==> times[1..][i] <= c.stored.start + window by {
      forall i | 0 <= i < |times[1..]| ensures times[1..][i] <= c.stored.start + window {
        assert times[1..][i] == times[i + 1];
      }
    }
    WindowAdmits(c.stored, limit, window, times[1..]);
  }

  /** The storage keys of the three scopes. */
  function UserKey(id: string): string { "user:" + id }
  function TenantKey(id: string): string { "tenant:" + id }
  function IpKey(id: string): string { "ip:" + id }

  /** Keys of different scopes never collide, and each scope's key names
      exactly one id. */
  lemma ScopeKeysDistinct(a: string, b: string)
    ensures UserKey(a) != TenantKey(b) && UserKey(a) != IpKey(b) && TenantKey(a) != IpKey(b)
    ensures UserKey(a) == UserKey(b) ==> a == b
    ensures TenantKey(a) == TenantKey(b) ==> a == b
    ensures IpKey(a) == IpKey(b) ==> a == b
  {
    assert UserKey(a)[0] == 'u' && TenantKey(b)[0] == 't' && IpKey(b)[0] == 'i';
    assert TenantKey(a)[0] == 't';
    if UserKey(a) == UserKey(b) {
      assert a == UserKey(a)[5..] && b == UserKey(b)[5..];
    }
    if TenantKey(a) == TenantKey(b) {
      assert a == TenantKey(a)[7..] && b == TenantKey(b)[7..];
    }
    if IpKey(a) == IpKey(b) {
      assert a == IpKey(a)[3..] && b == IpKey(b)[3..];
    }
  }

  /** `check_rate_limit` on a whole storage map: the verdict and the new map. */
  function Apply(storage: map<string, Window>, key: string, limit: int, now: int): (r: (Verdict, map<string, Window>))
    ensures r.1.Keys == storage.Keys + {key}
    ensures forall k :: k in storage && k != key ==> r.1[k] == storage[k]
    ensures !r.0.allowed ==> r.1 == storage
  {
    var c := Decide(Lookup(storage, key), limit, WINDOW_SECONDS, now);
    (c.verdict, storage[key := c.stored])
  }

  /** The scope that rejected a request, "none" when every check passed. */
  datatype LimitType = IpLimit | UserLimit | TenantLimit | NoLimit {
    function Name(): string {
      match this
      case IpLimit => "ip"
      case UserLimit => "user"
      case TenantLimit => "tenant"
      case NoLimit => "none"
    }
  }

  /** What `check_all_limits` returns: (allowed, remaining, reset_at, limit_type). */
  datatype Outcome = Outcome(allowed: bool, remaining: int, resetAt: int, limitType: LimitType)

  datatype Limits = Limits(perUser: int, perTenant: int, perIp: int)

  /** The default per-minute limits. */
  function DefaultLimits(): (l: Limits)
    ensures l.perUser == 1000 && l.perTenant == 100000 && l.perIp == 10000
  {
    Limits(Config.RATE_LIMIT_PER_USER_PER_MINUTE, Config.RATE_LIMIT_PER_TENANT_PER_MINUTE,
           Config.RATE_LIMIT_PER_IP_PER_MINUTE)
  }

  /** `check_all_limits`: ip, then user, then tenant, each only when its id
      is present and non-empty, stopping at the first rejection. When all
      pass, remaining and reset_at are those of the last check made if a
      user id was given, else 0 and `now`. */
  function CheckAll(storage: map<string, Window>, limits: Limits, user: Option<string>,
                    tenant: Option<string>, ip: Option<string>, now: int): (Outcome, map<string, Window>)
  {
    var (vIp, s1) := if Present(ip) then Apply(storage, IpKey(ip.value), limits.perIp, now)
                     else (Verdict(true, 0, now), storage);
    if !vIp.allowed then (Outcome(false, vIp.remaining, vIp.resetAt, IpLimit), s1)
    else
      var (vUser, s2) := if Present(user) then Apply(s1, UserKey(user.value), limits.perUser, now)
                         else (vIp, s1);
      if !vUser.allowed then (Outcome(false, vUser.remaining, vUser.resetAt, UserLimit), s2)
      else
        var (vTenant, s3) := if Present(tenant) then Apply(s2, TenantKey(tenant.value), limits.perTenant, now)
                             else (vUser, s2);
        if !vTenant.allowed then (Outcome(false, vTenant.remaining, vTenant.resetAt, TenantLimit), s3)
        else if Present(user) then (Outcome(true, vTenant.remaining, vTenant.resetAt, NoLimit), s3)
        else (Outcome(true, 0, now, NoLimit), s3)
  }

  /** The verdict each scope's own check gives on the storage as it was
      before the cascade (None when the scope's id is absent or empty). */
  function ScopeVerdict(storage: map<string, Window>, key: string, limit: int, now: int): Verdict {
    Decide(Lookup(storage, key), limit, WINDOW_SECONDS, now).verdict
  }

  /** A request passes the cascade exactly when every present scope admits it
      on its own entry, since the three keys never collide; a rejection
      names the first scope, in ip-user-tenant order, that refused. */
  lemma CheckAllAdmission(storage: map<string, Window>, limits: Limits, user: Option<string>,
                          tenant: Option<string>, ip: Option<string>, now: int)
    ensures var r := CheckAll(storage, limits, user, tenant, ip, now).0;
            var okIp := !Present(ip) || ScopeVerdict(storage, IpKey(ip.value), limits.perIp, now).allowed;
            var okUser := !Present(user) || ScopeVerdict(storage, UserKey(user.value), limits.perUser, now).allowed;
            var okTenant := !Present(tenant) || ScopeVerdict(storage, TenantKey(tenant.value), limits.perTenant, now).allowed;
            && (r.allowed <==> okIp && okUser && okTenant)
            && (r.allowed <==> r.limitType == NoLimit)
            && (r.limitType == IpLimit <==> !okIp)
            && (r.limitType == UserLimit <==> okIp && !okUser)
            && (r.limitType == TenantLimit <==> okIp && okUser && !okTenant)
            && (!r.allowed ==> r.remaining == 0)
  {
    if Present(ip) && Present(user) {
      ScopeKeysDistinct(user.value, ip.value);
    }
    if Present(ip) && Present(tenant) {
      ScopeKeysDistinct(tenant.value, ip.value);
    }
    if Present(user) && Present(tenant) {
      ScopeKeysDistinct(user.value, tenant.value);
    }
  }

  /** A rejection by an earlier scope leaves the later scopes' entries
      untouched, while an admitted earlier scope has already been counted. */
  lemma CheckAllShortCircuits(storage: map<string, Window>, limits: Limits, user: Option<string>,
                              tenant: Option<string>, ip: Option<string>, now: int)
    ensures var (r, s) := CheckAll(storage, limits, user, tenant, ip, now);
            && (r.limitType == IpLimit ==> s == storage)
            && (r.limitType == UserLimit && Present(ip) ==>
                  s == Apply(storage, IpKey(ip.value), limits.perIp, now).1)
            && (r.limitType == UserLimit && Present(tenant) ==>
                  Lookup(s, TenantKey(tenant.value)) == Lookup(storage, TenantKey(tenant.value)))
            && (r.allowed && Present(tenant) ==> TenantKey(tenant.value) in s)
  {
    if Present(user) && Present(tenant) {
      ScopeKeysDistinct(user.value, tenant.value);
    }
    if Present(ip) && Present(tenant) {
      ScopeKeysDistinct(tenant.value, ip.value);
    }
  }

  /** The result reported when every scope passes: with a user id, the
      remaining count and reset time of the last check made, which is the
      tenant check whenever a tenant id was given as well. */
  lemma CheckAllPassReport(storage: map<string, Window>, limits: Limits, user: Option<string>,
                           tenant: Option<string>, ip: Option<string>, now: int)
    requires CheckAll(storage, limits, user, tenant, ip, now).0.allowed
    ensures var r := CheckAll(storage, limits, user, tenant, ip, now).0;
            && (!Present(user) ==> r.remaining == 0 && r.resetAt == now)
            && (Present(user) && !Present(tenant) ==>
                  var vUser := ScopeVerdict(storage, UserKey(user.value), limits.perUser, now);
                  r.remaining == vUser.remaining && r.resetAt == vUser.resetAt)
            && (Present(user) && Present(tenant) ==>
                  var vTenant := ScopeVerdict(storage, TenantKey(tenant.value), limits.perTenant, now);
                  r.remaining == vTenant.remaining && r.resetAt == vTenant.resetAt)
  {
    if Present(ip) && Present(user) {
      ScopeKeysDistinct(user.value, ip.value);
    }
    if Present(ip) && Present(tenant) {
      ScopeKeysDistinct(tenant.value, ip.value);
    }
    if Present(user) && Present(tenant) {
      ScopeKeysDistinct(user.value, tenant.value);
    }
  }

  /** What `get_rate_limit_status` reports for a stored key. */
  datatype Status = Status(key: string, currentUsage: nat, windowStartAt: int, resetAt: int)

  /** `cleanup_expired` as a function: the entries still inside their 60-second window. */
  function Unexpired(storage: map<string, Window>, now: int): (r: map<string, Window>)
    ensures r.Keys <= storage.Keys
    ensures forall k :: k in storage ==> (k in r <==> !Expired(storage[k], WINDOW_SECONDS, now))
    ensures forall k :: k in r ==> r[k] == storage[k]
  {
    map k | k in storage && !Expired(storage[k], WINDOW_SECONDS, now) :: storage[k]
  }

  /** Removing entries whose 60-second window has expired cannot change the
      verdict or the stored entry of any later 60-second check. */
  lemma CleanupUnobservable(storage: map<string, Window>, now: int, later: int, key: string, limit: int)
    requires now <= later
    ensures Decide(Lookup(Unexpired(storage, now), key), limit, WINDOW_SECONDS, later)
         == Decide(Lookup(storage, key), limit, WINDOW_SECONDS, later)
  {
  }

  class RateLimitService {
    var perUser: int
    var perTenant: int
    var perIp: int
    /** key -> (count, window start) */
    var storage: map<string, Window>

    function CurrentLimits(): Limits
      reads this
    {
      Limits(perUser, perTenant, perIp)
    }

    constructor (perUser: int, perTenant: int, perIp: int)
      ensures CurrentLimits() == Limits(perUser, perTenant, perIp) && storage == map[]
    {
      this.perUser := perUser;
      this.perTenant := perTenant;
      this.perIp := perIp;
      storage := map[];
    }

    /** `check_rate_limit`. */
    method CheckRateLimit(key: string, limit: int, window: int, now: int) returns (v: Verdict)
      modifies this
      ensures CurrentLimits() == old(CurrentLimits())
      ensures v == Decide(Lookup(old(storage), key), limit, window, now).verdict
      ensures storage == old(storage)[key := Decide(Lookup(old(storage), key), limit, window, now).stored]
    {
      if key !in storage {
        storage := storage[key := Window(1, now)];
        return Verdict(true, limit - 1, now + window);
      }
      var w := storage[key];
      var windowEnd := w.start + window;
      if now > windowEnd {
        storage := storage[key := Window(1, now)];
        return Verdict(true, limit - 1, now + window);
      }
      if w.count >= limit {
        return Verdict(false, 0, windowEnd);
      }
      storage := storage[key := Window(w.count + 1, w.start)];
      return Verdict(true, limit - (w.count + 1), windowEnd);
    }

    /** `check_user_rate_limit`. */
    method CheckUserRateLimit(userId: string, now: int) returns (v: Verdict)
      modifies this
      ensures CurrentLimits() == old(CurrentLimits())
      ensures (v, storage) == Apply(old(storage), UserKey(userId), perUser, now)
    {
      v := CheckRateLimit(UserKey(userId), perUser, WINDOW_SECONDS, now);
    }

    /** `check_tenant_rate_limit`. */
    method CheckTenantRateLimit(tenantId: string, now: int) returns (v: Verdict)
      modifies this
      ensures CurrentLimits() == old(CurrentLimits())
      ensures (v, storage) == Apply(old(storage), TenantKey(tenantId), perTenant, now)
    {
      v := CheckRateLimit(TenantKey(tenantId), perTenant, WINDOW_SECONDS, now);
    }

    /** `check_ip_rate_limit`. */
    method CheckIpRateLimit(ip: string, now: int) returns (v: Verdict)
      modifies this
      ensures CurrentLimits() == old(CurrentLimits())
      ensures (v, storage) == Apply(old(storage), IpKey(ip), perIp, now)
    {
      v := CheckRateLimit(IpKey(ip), perIp, WINDOW_SECONDS, now);
    }

    /** `check_all_limits`. */
    method CheckAllLimits(user: Option<string>, tenant: Option<string>, ip: Option<string>, now: int)
      returns (r: Outcome)
      modifies this
      ensures CurrentLimits() == old(CurrentLimits())
      ensures (r, storage) == CheckAll(old(storage), old(CurrentLimits()), user, tenant, ip, now)
    {
      var v := Verdict(true, 0, now);
      if Present(ip) {
        v := CheckIpRateLimit(ip.value, now);
        if !v.allowed {
          return Outcome(false, v.remaining, v.resetAt, IpLimit);
        }
      }
      if Present(user) {
        v := CheckUserRateLimit(user.value, now);
        if !v.allowed {
          return Outcome(false, v.remaining, v.resetAt, UserLimit);
        }
      }
      if Present(tenant) {
        v := CheckTenantRateLimit(tenant.value, now);
        if !v.allowed {
          return Outcome(false, v.remaining, v.resetAt, TenantLimit);
        }
      }
      if Present(user) {
        return Outcome(true, v.remaining, v.resetAt, NoLimit);
      }
      return Outcome(true, 0, now, NoLimit);
    }

    /** `get_rate_limit_status`: None for an absent key, else the count and
        the window start and end, the end taken 60 seconds after the start. */
    method GetRateLimitStatus(key: string) returns (r: Option<Status>)
      ensures r.None? <==> key !in storage
      ensures r.Some? ==> r.value == Status(key, storage[key].count, storage[key].start,
                                             storage[key].start + WINDOW_SECONDS)
    {
      if key !in storage {
        return None;
      }
      var w := storage[key];
      return Some(Status(key, w.count, w.start, w.start + WINDOW_SECONDS));
    }

    /** `reset_rate_limit`: forget one key. */
    method ResetRateLimit(key: string)
      modifies this
      ensures CurrentLimits() == old(CurrentLimits())
      ensures storage == old(storage) - {key}
    {
      if key in storage {
        storage := storage - {key};
      }
    }

    /** The first loop of `cleanup_expired`: the keys whose 60-second window
        has expired at `now`. */
    method ExpiredKeys(now: int) returns (expired: set<string>)
      ensures expired == set k | k in storage && Expired(storage[k], WINDOW_SECONDS, now)
    {
      var pending := storage.Keys;
      expired := {};
      while pending != {}
        invariant pending <= storage.Keys
        invariant expired == set k | k in storage && k !in pending && Expired(storage[k], WINDOW_SECONDS, now)
        decreases |pending|
      {
        var k :| k in pending;
        var w := storage[k];
        if now > w.start + WINDOW_SECONDS {
          expired := expired + {k};
        }
        pending := pending - {k};
      }
    }

    /** `cleanup_expired`: delete exactly the expired entries. */
    method CleanupExpired(now: int)
      modifies this
      ensures CurrentLimits() == old(CurrentLimits())
      ensures storage == Unexpired(old(storage), now)
    {
      var expired := ExpiredKeys(now);
      storage := storage - expired;
    }
  }

  /** After `reset_rate_limit`, the next check on that key is a first request. */
  lemma ResetGivesFirstRequest(storage: map<string, Window>, key: string, limit: int, window: int, now: int)
    ensures Decide(Lookup(storage - {key}, key), limit, window, now)
         == Check(Verdict(true, limit - 1, now + window), Window(1, now))
  {
  }
}
