/** The gateway's own health endpoints: liveness (`/health`, `/healthz`)
    and readiness (`/ready`), which reports every tracked service and is
    ready exactly when every critical service is healthy. Times are whole
    seconds; `isoNow` is the text `isoformat()` gives for the current time. */
module HealthRoutes {
  import opened Common
  import opened Config
  import opened Discovery

  /** The `/health` body. */
  datatype HealthBody = HealthBody(status: string, timestamp: string, uptimeSeconds: int)

  /** `health`: always "healthy", with the time since the module was
      loaded at `startTime`. */
  function Health(startTime: int, now: int, isoNow: string): (r: HealthBody)
    ensures r.status == "healthy" && r.timestamp == isoNow + "Z"
    ensures r.uptimeSeconds + startTime == now
  {
    HealthBody("healthy", isoNow + "Z", now - startTime)
  }

  /** `healthz`: a constant body, whatever the state of the backends. */
  function Healthz(): (r: map<string, string>)
    ensures r.Keys == {"status"} && r["status"] == "OK"
  {
    map["status" := "OK"]
  }

  /** `ServiceStatus`: one service in the readiness body; a service never
      checked is reported as checked now. */
  datatype ServiceStatus = ServiceStatus(
    serviceName: string,
    status: string,
    lastCheckAt: int,
    responseTimeMs: Option<int>,
    error: Option<string>,
    consecutiveFailures: nat)

  function ToStatus(h: HealthReport, now: int): ServiceStatus {
    ServiceStatus(h.serviceName, h.status, h.lastCheckAt.GetOr(now), h.responseTimeMs, h.error, h.consecutiveFailures)
  }

  /** `ReadinessResponse`, and the status code it is sent with. */
  datatype Readiness = Readiness(ready: bool, services: map<string, ServiceStatus>)
  datatype ReadyReply = ReadyReply(status: int, body: Readiness)

  /** `ready`: without service discovery the gateway reports itself ready
      with no services; otherwise it lists every tracked service and is
      ready, with status 200, exactly when all critical services are
      healthy, and answers 503 otherwise. */
  method Ready(disc: ServiceDiscovery?, now: int) returns (reply: ReadyReply)
    ensures disc == null ==> reply == ReadyReply(200, Readiness(true, map[]))
    ensures disc != null ==> reply.body.ready == AllCriticalHealthy(disc.registry, disc.serviceHealth)
    ensures reply.status == (if reply.body.ready then 200 else 503)
    ensures disc != null ==> reply.body.services.Keys == disc.serviceHealth.Keys
    ensures disc != null ==> forall n :: n in reply.body.services ==>
              var s, h := reply.body.services[n], disc.serviceHealth[n];
              && s.serviceName == h.serviceName && s.status == h.status.Value()
              && s.consecutiveFailures == h.consecutiveFailures && s.error == h.error
              && s.responseTimeMs == h.responseTimeMs
              && s.lastCheckAt == (if h.lastCheckAt.Some? then h.lastCheckAt.value else now)
  {
    if disc == null {
      return ReadyReply(200, Readiness(true, map[]));
    }
    var allHealth := disc.GetAllHealthStatus();
    var allReady := disc.AreCriticalServicesHealthy();
    var services := map n | n in allHealth :: ToStatus(allHealth[n], now);
    var response := Readiness(allReady, services);
    if !allReady {
      return ReadyReply(503, response);
    }
    return ReadyReply(200, response);
  }

  const CRITICAL_SERVICES := ["auth-service", "authz-service", "profile-service", "loan-service"]

  /** With the shipped registry, readiness is decided by the auth, authz,
      profile and loan services alone: ready exactly when each of the four
      has a healthy record, whatever the other services report. */
  lemma ShippedReadiness(health: map<string, ServiceHealth>)
    ensures AllCriticalHealthy(Registry(), health) <==>
              forall j :: 0 <= j < |CRITICAL_SERVICES| ==>
                CRITICAL_SERVICES[j] in health && health[CRITICAL_SERVICES[j]].status == Healthy
  {
    var reg := Registry();
    RegistryShape();
    RegistryCriticality();
    assert forall j :: 0 <= j < 4 ==> reg[j].name == Names(reg)[j];
  }

  /** Before any probe every record is "unknown", so a freshly started
      gateway with the shipped registry is not ready. */
  lemma NotReadyBeforeFirstProbe(health: map<string, ServiceHealth>)
    requires forall n :: n in health ==> health[n] == NewHealth(n)
    ensures !AllCriticalHealthy(Registry(), health)
  {
    ShippedReadiness(health);
    assert !(CRITICAL_SERVICES[0] in health && health[CRITICAL_SERVICES[0]].status == Healthy);
  }
}
