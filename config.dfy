/** The gateway's static configuration: the default settings it starts from
    and the ordered table of backend services it routes to. */
module Config {
  import opened Common

  // Settings defaults for the circuit breaker (seconds and counts).
  const CIRCUIT_BREAKER_FAILURE_THRESHOLD: nat := 5
  const CIRCUIT_BREAKER_RECOVERY_TIMEOUT: nat := 60
  const CIRCUIT_BREAKER_HALF_OPEN_MAX_CALLS: nat := 3

  // Settings defaults for the rate limiter (requests per minute).
  const RATE_LIMIT_PER_USER_PER_MINUTE: int := 1000
  const RATE_LIMIT_PER_TENANT_PER_MINUTE: int := 100000
  const RATE_LIMIT_PER_IP_PER_MINUTE: int := 10000

  // Default base URLs of the backends.
  const AUTH_SERVICE_URL := "http://localhost:8001"
  const AUTHZ_SERVICE_URL := "http://localhost:8002"
  const PROFILE_SERVICE_URL := "http://localhost:8006"
  const LOAN_SERVICE_URL := "http://localhost:8005"
  const DOCUMENT_SERVICE_URL := "http://localhost:8003"
  const NOTIFICATION_SERVICE_URL := "http://localhost:8007"
  const AUDIT_SERVICE_URL := "http://localhost:8008"

  /** One row of the service registry. `critical` is optional in the table;
      readers default it to true. */
  datatype ServiceEntry = ServiceEntry(
    name: string,
    url: string,
    pathPrefix: string,
    healthCheckPath: string,
    timeoutMs: nat,
    critical: Option<bool>)

  /** `config.get("critical", True)` */
  predicate IsCritical(e: ServiceEntry) {
    e.critical.GetOr(true)
  }

  /** The registry in declaration order (Python dictionaries keep insertion
      order, and routing depends on it). */
  function Registry(): seq<ServiceEntry> {
    [ ServiceEntry("auth-service", AUTH_SERVICE_URL, "/api/v1/auth", "/health", 30000, Some(true)),
      ServiceEntry("authz-service", AUTHZ_SERVICE_URL, "/api/v1/authz", "/health", 5000, Some(true)),
      ServiceEntry("profile-service", PROFILE_SERVICE_URL, "/api/v1/profiles", "/health", 30000, Some(true)),
      ServiceEntry("loan-service", LOAN_SERVICE_URL, "/api/v1/loans", "/health", 30000, Some(true)),
      ServiceEntry("document-service", DOCUMENT_SERVICE_URL, "/api/v1/documents", "/health", 30000, Some(false)),
      ServiceEntry("notification-service", NOTIFICATION_SERVICE_URL, "/api/v1/notifications", "/health", 30000, Some(false)),
      ServiceEntry("audit-service", AUDIT_SERVICE_URL, "/api/v1/audit", "/health", 30000, Some(false)) ]
  }

  function Names(reg: seq<ServiceEntry>): (ns: seq<string>)
    ensures |ns| == |reg|
    ensures forall i :: 0 <= i < |reg| ==> ns[i] == reg[i].name
  {
    if reg == [] then [] else [reg[0].name] + Names(reg[1..])
  }

  /** A registry is a dictionary: no name occurs twice. */
  predicate UniqueNames(reg: seq<ServiceEntry>) {
    forall i, j :: 0 <= i < j < |reg| ==> reg[i].name != reg[j].name
  }

  /** The shipped table: seven services in this order, every one probed at "/health". */
  lemma RegistryShape()
    ensures Names(Registry()) == ["auth-service", "authz-service", "profile-service", "loan-service",
                                  "document-service", "notification-service", "audit-service"]
    ensures forall i :: 0 <= i < |Registry()| ==> Registry()[i].healthCheckPath == "/health"
    ensures UniqueNames(Registry())
  {
  }

  /** auth, authz, profile and loan are critical; document, notification and audit are not. */
  lemma RegistryCriticality()
    ensures forall i :: 0 <= i < |Registry()| ==> (IsCritical(Registry()[i]) <==> i < 4)
  {
  }

  /** Every prefix lives under "/api/v1/" and no two rows share a prefix; yet
      the auth prefix is a string prefix of the authz prefix and comes first. */
  lemma RegistryPrefixes()
    ensures forall i :: 0 <= i < |Registry()| ==> "/api/v1/" <= Registry()[i].pathPrefix
    ensures forall i, j :: 0 <= i < j < |Registry()| ==> Registry()[i].pathPrefix != Registry()[j].pathPrefix
    ensures Registry()[0].pathPrefix < Registry()[1].pathPrefix
  {
  }
}
