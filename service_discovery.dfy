/** Service discovery: the health record kept for every registered backend,
    updated from health probes, plus routing of request paths to backends and
    the "all critical services healthy" readiness test. The probe itself is
    an input; `now` is the time in seconds. */
module Discovery {
  import opened Common
  import opened Config

  datatype HealthStatus = Unknown | Healthy | Degraded | Unhealthy {
    /** The status string stored on the record. */
    function Value(): string {
      match this
      case Unknown => "unknown"
      case Healthy => "healthy"
      case Degraded => "degraded"
      case Unhealthy => "unhealthy"
    }
  }

  /** The health record of one service. */
  datatype ServiceHealth = ServiceHealth(
    serviceName: string,
    status: HealthStatus,
    lastCheckAt: Option<int>,
    responseTimeMs: Option<int>,
    error: Option<string>,
    consecutiveFailures: nat)

  /** `ServiceHealth(name)`: a record nobody has probed yet. */
  function NewHealth(name: string): (h: ServiceHealth)
    ensures h.serviceName == name && h.status == Unknown && h.consecutiveFailures == 0
    ensures h.lastCheckAt.None? && h.responseTimeMs.None? && h.error.None?
  {
    ServiceHealth(name, Unknown, None, None, None, 0)
  }

  /** What a health probe did: answered (with whether the answer was a 200,
      and the measured latency), or raised an exception with a message. */
  datatype ProbeOutcome = Responded(ok: bool, latencyMs: int) | Raised(message: string)

  predicate Succeeded(o: ProbeOutcome) {
    o.Responded? && o.ok
  }

  /** Consecutive failures from which a service counts as unhealthy. */
  const UNHEALTHY_AFTER: nat := 3

  const NON_200_ERROR := "Health check returned non-200 status"

  /** The record after one probe at time `now`. */
  function ProbeUpdate(h: ServiceHealth, o: ProbeOutcome, now: int): (r: ServiceHealth)
    ensures r.serviceName == h.serviceName && r.lastCheckAt == Some(now)
    ensures Succeeded(o) ==> r.status == Healthy && r.consecutiveFailures == 0 && r.error.None?
    ensures !Succeeded(o) ==>
              && r.consecutiveFailures == h.consecutiveFailures + 1
              && (r.status == Unhealthy <==> r.consecutiveFailures >= UNHEALTHY_AFTER)
              && (r.status == Degraded <==> r.consecutiveFailures < UNHEALTHY_AFTER)
    ensures o.Responded? ==> r.responseTimeMs == Some(o.latencyMs)
    ensures o.Responded? && !o.ok ==> r.error == Some(NON_200_ERROR)
    ensures o.Raised? ==> r.responseTimeMs == h.responseTimeMs && r.error == Some(o.message)
  {
    match o
    case Responded(ok, latency) =>
      if ok then
        h.(status := Healthy, consecutiveFailures := 0, error := None,
           lastCheckAt := Some(now), responseTimeMs := Some(latency))
      else
        var failures := h.consecutiveFailures + 1;
        h.(consecutiveFailures := failures,
           status := if failures >= UNHEALTHY_AFTER then Unhealthy else Degraded,
           error := Some(NON_200_ERROR),
           lastCheckAt := Some(now), responseTimeMs := Some(latency))
    case Raised(message) =>
      var failures := h.consecutiveFailures + 1;
      h.(consecutiveFailures := failures,
         status := if failures >= UNHEALTHY_AFTER then Unhealthy else Degraded,
         error := Some(message),
         lastCheckAt := Some(now))
  }

  /** A series of probes, all at time `now`, applied in order. */
  function ProbeAll(h: ServiceHealth, outcomes: seq<ProbeOutcome>, now: int): ServiceHealth
    decreases |outcomes|
  {
    if outcomes == [] then h
    else ProbeUpdate(ProbeAll(h, outcomes[..|outcomes| - 1], now), outcomes[|outcomes| - 1], now)
  }

  /** A streak of failed probes adds its length to the failure counter; the
      service is then unhealthy exactly when the counter has reached three,
      and degraded otherwise. */
  lemma {:induction false} FailureStreak(h: ServiceHealth, outcomes: seq<ProbeOutcome>, now: int)
    requires outcomes != []
    requires forall i :: 0 <= i < |outcomes| ==> !Succeeded(outcomes[i])
    ensures ProbeAll(h, outcomes, now).consecutiveFailures == h.consecutiveFailures + |outcomes|
    ensures ProbeAll(h, outcomes, now).status == Unhealthy <==> h.consecutiveFailures + |outcomes| >= UNHEALTHY_AFTER
    ensures ProbeAll(h, outcomes, now).status == Degraded <==> h.consecutiveFailures + |outcomes| < UNHEALTHY_AFTER
    decreases |outcomes|
  {
    var init := outcomes[..|outcomes| - 1];
    if init != [] {
      assert forall i :: 0 <= i < |init| ==> !Succeeded(init[i]) by {
        forall i | 0 <= i < |init| ensures !Succeeded(init[i]) {
          assert init[i] == outcomes[i];
        }
      }
      FailureStreak(h, init, now);
    }
  }

  /** A single successful probe restores a healthy record with no failures,
      whatever came before it. */
  lemma SuccessRestores(h: ServiceHealth, outcomes: seq<ProbeOutcome>, now: int)
    requires outcomes != [] && Succeeded(outcomes[|outcomes| - 1])
    ensures ProbeAll(h, outcomes, now).status == Healthy
    ensures ProbeAll(h, outcomes, now).consecutiveFailures == 0
  {
  }

  /** The registry entry with this name (a registry has unique names). */
  function FindEntry(reg: seq<ServiceEntry>, name: string): (r: Option<ServiceEntry>)
    ensures r.Some? <==> exists i :: 0 <= i < |reg| && reg[i].name == name
    ensures r.Some? ==> r.value in reg && r.value.name == name
    ensures UniqueNames(reg) ==> forall i :: 0 <= i < |reg| && reg[i].name == name ==> r == Some(reg[i])
    decreases |reg|
  {
    if reg == [] then None
    else if reg[0].name == name then Some(reg[0])
    else
      var rest := FindEntry(reg[1..], name);
      assert forall i :: 1 <= i < |reg| ==> reg[i] == reg[1..][i - 1];
      rest
  }

  /** First-match routing: the index of the first entry, in table order,
      whose path prefix is a string prefix of `path`. */
  function FirstMatch(reg: seq<ServiceEntry>, path: string): (r: Option<nat>)
    ensures r.Some? ==> r.value < |reg| && reg[r.value].pathPrefix <= path
    ensures r.Some? ==> forall j :: 0 <= j < r.value ==> !(reg[j].pathPrefix <= path)
    ensures r.None? ==> forall j :: 0 <= j < |reg| ==> !(reg[j].pathPrefix <= path)
    decreases |reg|
  {
    if reg == [] then None
    else if reg[0].pathPrefix <= path then Some(0)
    else
      match FirstMatch(reg[1..], path)
      case None => None
      case Some(i) => Some(i + 1)
  }

  /** Two prefixes of the same path are prefixes of one another. */
  lemma PrefixesOfOnePath(a: string, b: string, path: string)
    requires a <= path && b <= path && |a| <= |b|
    ensures a <= b
  {
    assert a == path[..|a|] && b == path[..|b|];
    assert b[..|a|] == path[..|a|];
  }

  /** Under the shipped table, every path under "/api/v1/authz" goes to the
      auth service, and nothing ever routes to the authz service. */
  lemma AuthzShadowedByAuth(path: string)
    ensures "/api/v1/authz" <= path ==> FirstMatch(Registry(), path) == Some(0)
    ensures "/api/v1/authz" <= path ==> Registry()[0].name == "auth-service"
    ensures FirstMatch(Registry(), path) != Some(1)
  {
    var reg := Registry();
    if "/api/v1/authz" <= path {
      PrefixesOfOnePath(reg[0].pathPrefix, "/api/v1/authz", path);
      assert reg[0].pathPrefix <= path;
    }
  }

  /** Two strings that differ at a position both reach are not prefixes
      of one another. */
  lemma DifferAt(a: string, b: string, k: nat)
    requires k < |a| && k < |b| && a[k] != b[k]
    ensures !(a <= b) && !(b <= a)
  {
  }

  /** Every other service gets exactly the paths under its own prefix. */
  lemma OwnPrefixRoutes(i: nat, path: string)
    requires i < |Registry()| && i != 1
    requires Registry()[i].pathPrefix <= path
    ensures FirstMatch(Registry(), path) == Some(i)
  {
    var reg := Registry();
    forall j | 0 <= j < i
      ensures !(reg[j].pathPrefix <= path)
    {
      var a, b := reg[j].pathPrefix, reg[i].pathPrefix;
      var k := if a[8] != b[8] then 8 else 10;
      DifferAt(a, b, k);
      if a <= path {
        if |a| <= |b| {
          PrefixesOfOnePath(a, b, path);
        } else {
          PrefixesOfOnePath(b, a, path);
        }
      }
    }
    FirstIsFirst(reg, path, i);
  }

  /** `are_critical_services_healthy` as a predicate: every entry whose
      `critical` flag is true or absent has a healthy record. */
  predicate AllCriticalHealthy(reg: seq<ServiceEntry>, health: map<string, ServiceHealth>) {
    forall i :: 0 <= i < |reg| && IsCritical(reg[i]) ==>
      reg[i].name in health && health[reg[i].name].status == Healthy
  }

  /** The record of a non-critical service never decides readiness. */
  lemma NonCriticalIrrelevant(reg: seq<ServiceEntry>, health: map<string, ServiceHealth>, k: nat, h: ServiceHealth)
    requires UniqueNames(reg) && k < |reg| && !IsCritical(reg[k])
    ensures AllCriticalHealthy(reg, health[reg[k].name := h]) <==> AllCriticalHealthy(reg, health)
  {
    forall i | 0 <= i < |reg| && IsCritical(reg[i])
      ensures reg[i].name != reg[k].name
    {
      if i < k {
        assert reg[i].name != reg[k].name;
      } else if k < i {
        assert reg[k].name != reg[i].name;
      }
    }
  }

  /** What `get_all_health_status` reports per service. */
  datatype HealthReport = HealthReport(
    serviceName: string,
    status: string,
    lastCheckAt: Option<int>,
    responseTimeMs: Option<int>,
    error: Option<string>,
    consecutiveFailures: nat)

  function Report(h: ServiceHealth): HealthReport {
    HealthReport(h.serviceName, h.status.Value(), h.lastCheckAt, h.responseTimeMs, h.error, h.consecutiveFailures)
  }

  /** Registry entries whose names are in `names`. */
  predicate Covers(reg: seq<ServiceEntry>, keys: set<string>) {
    forall i :: 0 <= i < |reg| ==> reg[i].name in keys
  }

  class ServiceDiscovery {
    /** The registry the gateway routes over, in table order. */
    const registry: seq<ServiceEntry>
    /** service name -> health record */
    var serviceHealth: map<string, ServiceHealth>

    /** Every registered name has a record, and each record is filed under
        its own service name. */
    ghost predicate Valid()
      reads this
    {
      && Covers(registry, serviceHealth.Keys)
      && (forall n :: n in serviceHealth ==> serviceHealth[n].serviceName == n)
    }

    /** `__init__`: one fresh record per registry entry. */
    constructor (registry: seq<ServiceEntry>)
      ensures this.registry == registry && Valid()
      ensures serviceHealth.Keys == set i | 0 <= i < |registry| :: registry[i].name
      ensures forall n :: n in serviceHealth ==> serviceHealth[n] == NewHealth(n)
    {
      this.registry := registry;
      var health: map<string, ServiceHealth> := map[];
      var i := 0;
      while i < |registry|
        invariant i <= |registry|
        invariant health.Keys == set j | 0 <= j < i :: registry[j].name
        invariant forall n :: n in health ==> health[n] == NewHealth(n)
      {
        health := health[registry[i].name := NewHealth(registry[i].name)];
        i := i + 1;
      }
      serviceHealth := health;
    }

    /** The record for `name`, or the fresh one `check_service_health` would create. */
    function HealthOf(name: string): ServiceHealth
      reads this
    {
      if name in serviceHealth then serviceHealth[name] else NewHealth(name)
    }

    /** `check_service_health`: probe the entry's health URL (url followed by
        its health-check path) and record the outcome. An unregistered name
        answers false and changes nothing. */
    method CheckServiceHealth(name: string, probe: string -> ProbeOutcome, now: int) returns (healthy: bool)
      modifies this
      ensures FindEntry(registry, name).None? ==> !healthy && serviceHealth == old(serviceHealth)
      ensures FindEntry(registry, name).Some? ==>
                var e := FindEntry(registry, name).value;
                var o := probe(e.url + e.healthCheckPath);
                && healthy == Succeeded(o)
                && serviceHealth == old(serviceHealth)[name := ProbeUpdate(old(HealthOf(name)), o, now)]
      ensures old(Valid()) ==> Valid()
    {
      var entry := FindEntry(registry, name);
      if entry.None? {
        return false;
      }
      var e := entry.value;
      var healthUrl := e.url + e.healthCheckPath;
      var health: ServiceHealth;
      if name in serviceHealth {
        health := serviceHealth[name];
      } else {
        health := NewHealth(name);
      }
      var o := probe(healthUrl);
      match o {
        case Responded(ok, latency) =>
          if ok {
            health := health.(status := Healthy, consecutiveFailures := 0, error := None);
          } else {
            health := health.(consecutiveFailures := health.consecutiveFailures + 1);
            health := health.(status := if health.consecutiveFailures >= UNHEALTHY_AFTER then Unhealthy else Degraded);
            health := health.(error := Some(NON_200_ERROR));
          }
          health := health.(lastCheckAt := Some(now), responseTimeMs := Some(latency));
          healthy := ok;
        case Raised(message) =>
          health := health.(consecutiveFailures := health.consecutiveFailures + 1);
          health := health.(status := if health.consecutiveFailures >= UNHEALTHY_AFTER then Unhealthy else Degraded);
          health := health.(error := Some(message), lastCheckAt := Some(now));
          healthy := false;
      }
      serviceHealth := serviceHealth[name := health];
    }

    /** `get_service_url`. */
    function GetServiceUrl(name: string): (r: Option<string>)
      ensures r.Some? <==> exists i :: 0 <= i < |registry| && registry[i].name == name
      ensures r.Some? ==> exists i :: 0 <= i < |registry| && registry[i].name == name && registry[i].url == r.value
    {
      match FindEntry(registry, name)
      case None => None
      case Some(e) => Some(e.url)
    }

    /** `get_service_by_path`: (name, url) of the first entry in table order
        whose prefix starts the path. */
    method GetServiceByPath(path: string) returns (r: Option<(string, string)>)
      ensures FirstMatch(registry, path).None? ==> r.None?
      ensures FirstMatch(registry, path).Some? ==>
                var e := registry[FirstMatch(registry, path).value];
                r == Some((e.name, e.url))
    {
      var i := 0;
      while i < |registry|
        invariant i <= |registry|
        invariant forall j :: 0 <= j < i ==> !(registry[j].pathPrefix <= path)
      {
        if registry[i].pathPrefix <= path {
          FirstIsFirst(registry, path, i);
          return Some((registry[i].name, registry[i].url));
        }
        i := i + 1;
      }
      return None;
    }

    /** `is_service_healthy`. */
    function IsServiceHealthy(name: string): (r: bool)
      reads this
      ensures r <==> name in serviceHealth && serviceHealth[name].status == Healthy
    {
      if name in serviceHealth then serviceHealth[name].status == Healthy else false
    }

    /** `is_service_critical`: false for an unregistered name, else the
        entry's flag, true when absent. */
    function IsServiceCritical(name: string): (r: bool)
      requires UniqueNames(registry)
      ensures r <==> exists i :: 0 <= i < |registry| && registry[i].name == name && IsCritical(registry[i])
    {
      match FindEntry(registry, name)
      case None => false
      case Some(e) => IsCritical(e)
    }

    /** `are_critical_services_healthy`. */
    method AreCriticalServicesHealthy() returns (r: bool)
      ensures r <==> AllCriticalHealthy(registry, serviceHealth)
    {
      var i := 0;
      while i < |registry|
        invariant i <= |registry|
        invariant forall j :: 0 <= j < i && IsCritical(registry[j]) ==>
                    registry[j].name in serviceHealth && serviceHealth[registry[j].name].status == Healthy
      {
        var e := registry[i];
        if e.critical.GetOr(true) {
          if e.name !in serviceHealth || serviceHealth[e.name].status != Healthy {
            return false;
          }
        }
        i := i + 1;
      }
      return true;
    }

    /** `get_all_health_status`: one report per record. */
    function GetAllHealthStatus(): (r: map<string, HealthReport>)
      reads this
      ensures r.Keys == serviceHealth.Keys
      ensures forall n :: n in r ==>
                && r[n].serviceName == serviceHealth[n].serviceName
                && r[n].status == serviceHealth[n].status.Value()
                && r[n].consecutiveFailures == serviceHealth[n].consecutiveFailures
                && r[n].error == serviceHealth[n].error
                && r[n].lastCheckAt == serviceHealth[n].lastCheckAt
                && r[n].responseTimeMs == serviceHealth[n].responseTimeMs
    {
      map n | n in serviceHealth :: Report(serviceHealth[n])
    }
  }

  /** The loop's early exit at `i` is the first match. */
  lemma FirstIsFirst(reg: seq<ServiceEntry>, path: string, i: nat)
    requires i < |reg| && reg[i].pathPrefix <= path
    requires forall j :: 0 <= j < i ==> !(reg[j].pathPrefix <= path)
    ensures FirstMatch(reg, path) == Some(i)
  {
  }
}
