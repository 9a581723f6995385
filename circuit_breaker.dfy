/** Per-service circuit breakers: a three-state machine (closed, open,
    half-open) driven by a failure counter, a success counter, a half-open
    admission counter and the time of the last failure. Each locked method of
    the source is one atomic step here; time is an integer `now` in seconds. */
module CircuitBreakers {
  import opened Common
  import Config

  datatype CircuitState = Closed | Open | HalfOpen {
    /** The enum's string value, as reported by `get_state`. */
    function Value(): string {
      match this
      case Closed => "closed"
      case Open => "open"
      case HalfOpen => "half_open"
    }
  }

  /** Reads a reported state string back. */
  function StateFromValue(s: string): Option<CircuitState> {
    if s == "closed" then Some(Closed)
    else if s == "open" then Some(Open)
    else if s == "half_open" then Some(HalfOpen)
    else None
  }

  lemma StateValueRoundTrip(c: CircuitState)
    ensures StateFromValue(c.Value()) == Some(c)
  {
  }

  datatype BreakerConfig = BreakerConfig(failureThreshold: nat, recoveryTimeout: nat, halfOpenMaxCalls: nat)

  /** The thresholds the gateway starts every breaker with. */
  function DefaultConfig(): (cfg: BreakerConfig)
    ensures cfg.failureThreshold == 5 && cfg.recoveryTimeout == 60 && cfg.halfOpenMaxCalls == 3
  {
    BreakerConfig(Config.CIRCUIT_BREAKER_FAILURE_THRESHOLD,
                  Config.CIRCUIT_BREAKER_RECOVERY_TIMEOUT,
                  Config.CIRCUIT_BREAKER_HALF_OPEN_MAX_CALLS)
  }

  /** The mutable part of one breaker, as a value. */
  datatype BreakerState = BreakerState(
    state: CircuitState,
    failureCount: nat,
    successCount: nat,
    lastFailureTime: Option<int>,
    halfOpenCalls: nat)

  function Initial(): BreakerState {
    BreakerState(Closed, 0, 0, None, 0)
  }

  /** The failure count at which a closed breaker opens. A threshold of 0
      behaves like 1: the first failure already reaches it. */
  function OpensAt(cfg: BreakerConfig): nat {
    if cfg.failureThreshold == 0 then 1 else cfg.failureThreshold
  }

  /** What every reachable breaker state satisfies. */
  ghost predicate Inv(cfg: BreakerConfig, b: BreakerState) {
    && (b.state == Closed ==> b.failureCount < OpensAt(cfg))
    && (b.state != Closed ==> b.failureCount == OpensAt(cfg) && b.lastFailureTime.Some?)
    && (b.state != HalfOpen ==> b.successCount == 0 && b.halfOpenCalls == 0)
    && (b.state == HalfOpen ==>
          b.halfOpenCalls <= cfg.halfOpenMaxCalls
          && (b.successCount == 0 || b.successCount < cfg.halfOpenMaxCalls))
  }

  lemma InitialInv(cfg: BreakerConfig)
    ensures Inv(cfg, Initial())
  {
  }

  datatype Admission = Admission(allowed: bool, next: BreakerState)

  /** `CircuitBreaker.call`: may a request go through, and the state after asking. */
  function Admit(cfg: BreakerConfig, b: BreakerState, now: int): (r: Admission)
    ensures b.state == Closed ==> r.allowed && r.next == b
    ensures !r.allowed ==> r.next == b
    ensures r.next.failureCount == b.failureCount && r.next.successCount == b.successCount
    ensures r.next.lastFailureTime == b.lastFailureTime
    ensures r.next.state == Closed <==> b.state == Closed
    ensures Inv(cfg, b) ==> Inv(cfg, r.next)
  {
    match b.state
    case Closed => Admission(true, b)
    case Open =>
      if b.lastFailureTime.Some? && now - b.lastFailureTime.value >= cfg.recoveryTimeout then
        Admission(true, b.(state := HalfOpen, halfOpenCalls := 0))
      else
        Admission(false, b)
    case HalfOpen =>
      if b.halfOpenCalls < cfg.halfOpenMaxCalls then
        Admission(true, b.(halfOpenCalls := b.halfOpenCalls + 1))
      else
        Admission(false, b)
  }

  /** `CircuitBreaker.record_success`. */
  function Success(cfg: BreakerConfig, b: BreakerState): (r: BreakerState)
    ensures r.lastFailureTime == b.lastFailureTime
    ensures b.state == Open ==> r == b
    ensures b.state == Closed ==> r == b.(failureCount := 0)
    ensures r.state != Open || b.state == Open
    ensures b.state == HalfOpen && r.state == Closed ==> r == BreakerState(Closed, 0, 0, b.lastFailureTime, 0)
    ensures Inv(cfg, b) ==> Inv(cfg, r)
  {
    match b.state
    case HalfOpen =>
      if b.successCount + 1 >= cfg.halfOpenMaxCalls then
        BreakerState(Closed, 0, 0, b.lastFailureTime, 0)
      else
        b.(successCount := b.successCount + 1)
    case Closed =>
      if b.failureCount > 0 then b.(failureCount := 0) else b
    case Open => b
  }

  /** `CircuitBreaker.record_failure` at time `now`. */
  function Failure(cfg: BreakerConfig, b: BreakerState, now: int): (r: BreakerState)
    ensures r.lastFailureTime == Some(now)
    ensures r.state != HalfOpen
    ensures r.state == Closed ==> b.state == Closed && r.failureCount == b.failureCount + 1
    ensures b.state == Open ==> r == b.(lastFailureTime := Some(now))
    ensures Inv(cfg, b) ==> Inv(cfg, r)
  {
    var stamped := b.(lastFailureTime := Some(now));
    match b.state
    case HalfOpen => stamped.(state := Open, successCount := 0, halfOpenCalls := 0)
    case Closed =>
      if b.failureCount + 1 >= cfg.failureThreshold then
        stamped.(failureCount := b.failureCount + 1, state := Open)
      else
        stamped.(failureCount := b.failureCount + 1)
    case Open => stamped
  }

  /** `k` failures in a row, all recorded at time `now`. */
  function Failures(cfg: BreakerConfig, b: BreakerState, k: nat, now: int): BreakerState {
    if k == 0 then b else Failure(cfg, Failures(cfg, b, k - 1, now), now)
  }

  /** From a closed breaker with no failures, the breaker stays closed and
      counts each failure until the count reaches the threshold, then opens
      and stays open. */
  lemma {:induction false} ConsecutiveFailuresOpen(cfg: BreakerConfig, b: BreakerState, k: nat, now: int)
    requires b.state == Closed && b.failureCount == 0
    ensures k < OpensAt(cfg) ==> Failures(cfg, b, k, now).state == Closed && Failures(cfg, b, k, now).failureCount == k
    ensures k >= OpensAt(cfg) ==> Failures(cfg, b, k, now).state == Open && Failures(cfg, b, k, now).failureCount == OpensAt(cfg)
  {
    if k > 0 {
      ConsecutiveFailuresOpen(cfg, b, k - 1, now);
    }
  }

  /** `n` admission queries at time `now` with no outcome recorded in between:
      how many were admitted, and the state afterwards. */
  function AdmitMany(cfg: BreakerConfig, b: BreakerState, n: nat, now: int): (nat, BreakerState)
    decreases n
  {
    if n == 0 then (0, b)
    else
      var a := Admit(cfg, b, now);
      var rest := AdmitMany(cfg, a.next, n - 1, now);
      ((if a.allowed then 1 else 0) + rest.0, rest.1)
  }

  function Min(a: nat, b: nat): nat {
    if a <= b then a else b
  }

  /** In half-open state with `c` calls already counted, `n` further queries
      admit exactly min(n, max - c) of them. */
  lemma {:induction false} HalfOpenAdmissions(cfg: BreakerConfig, b: BreakerState, n: nat, now: int)
    requires b.state == HalfOpen && b.halfOpenCalls <= cfg.halfOpenMaxCalls
    ensures AdmitMany(cfg, b, n, now).0 == Min(n, cfg.halfOpenMaxCalls - b.halfOpenCalls)
    ensures AdmitMany(cfg, b, n, now).1.state == HalfOpen
    decreases n
  {
    if n > 0 {
      HalfOpenAdmissions(cfg, Admit(cfg, b, now).next, n - 1, now);
    }
  }

  /** Once the recovery timeout has elapsed, an open breaker admits exactly
      `half_open_max_calls + 1` of `n` queries (the transition call is not
      counted against the half-open budget), and denies every query before that. */
  lemma OpenRecoveryAdmissions(cfg: BreakerConfig, b: BreakerState, n: nat, now: int)
    requires b.state == Open && b.lastFailureTime.Some?
    ensures now - b.lastFailureTime.value < cfg.recoveryTimeout ==> AdmitMany(cfg, b, n, now) == (0, b)
    ensures now - b.lastFailureTime.value >= cfg.recoveryTimeout && n >= 1 ==>
              AdmitMany(cfg, b, n, now).0 == Min(n, cfg.halfOpenMaxCalls + 1)
  {
    if now - b.lastFailureTime.value < cfg.recoveryTimeout {
      OpenStaysDenied(cfg, b, n, now);
    } else if n >= 1 {
      var a := Admit(cfg, b, now);
      HalfOpenAdmissions(cfg, a.next, n - 1, now);
    }
  }

  lemma {:induction false} OpenStaysDenied(cfg: BreakerConfig, b: BreakerState, n: nat, now: int)
    requires b.state == Open && b.lastFailureTime.Some?
    requires now - b.lastFailureTime.value < cfg.recoveryTimeout
    ensures AdmitMany(cfg, b, n, now) == (0, b)
  {
    if n > 0 {
      OpenStaysDenied(cfg, b, n - 1, now);
    }
  }

  /** `k` successes in a row. */
  function Successes(cfg: BreakerConfig, b: BreakerState, k: nat): BreakerState {
    if k == 0 then b else Success(cfg, Successes(cfg, b, k - 1))
  }

  /** A half-open breaker that has seen no success yet stays half-open for the
      first `half_open_max_calls - 1` successes and closes, with every counter
      zeroed, on success number `half_open_max_calls`. */
  lemma {:induction false} HalfOpenRecovery(cfg: BreakerConfig, b: BreakerState, k: nat)
    requires b.state == HalfOpen && b.successCount == 0 && 1 <= k
    ensures k < cfg.halfOpenMaxCalls ==> Successes(cfg, b, k) == b.(successCount := k)
    ensures k >= cfg.halfOpenMaxCalls ==>
              Successes(cfg, b, k) == BreakerState(Closed, 0, 0, b.lastFailureTime, 0)
  {
    if k > 1 {
      HalfOpenRecovery(cfg, b, k - 1);
    }
  }

  /** What `get_state` reports for one breaker (the half-open call counter is not reported). */
  datatype BreakerReport = BreakerReport(
    serviceName: string,
    state: string,
    failureCount: nat,
    successCount: nat,
    lastFailureTime: Option<int>)

  /** A circuit breaker for one service; its fields change in place. */
  class CircuitBreaker {
    const serviceName: string
    const config: BreakerConfig
    var state: CircuitState
    var failureCount: nat
    var successCount: nat
    var lastFailureTime: Option<int>
    var halfOpenCalls: nat

    function Snapshot(): BreakerState
      reads this
    {
      BreakerState(state, failureCount, successCount, lastFailureTime, halfOpenCalls)
    }

    ghost predicate Valid()
      reads this
    {
      Inv(config, Snapshot())
    }

    constructor (serviceName: string, config: BreakerConfig)
      ensures this.serviceName == serviceName && this.config == config
      ensures Snapshot() == Initial() && Valid()
    {
      this.serviceName := serviceName;
      this.config := config;
      state := Closed;
      failureCount := 0;
      successCount := 0;
      lastFailureTime := None;
      halfOpenCalls := 0;
    }

    /** `call`: whether a request may go through now. */
    method Call(now: int) returns (allowed: bool)
      modifies this
      ensures old(Valid()) ==> Valid()
      ensures Admission(allowed, Snapshot()) == Admit(config, old(Snapshot()), now)
    {
      if state == Closed {
        return true;
      }
      if state == Open {
        if lastFailureTime.Some? {
          var elapsed := now - lastFailureTime.value;
          if elapsed >= config.recoveryTimeout {
            state := HalfOpen;
            halfOpenCalls := 0;
            return true;
          }
        }
        return false;
      }
      if halfOpenCalls < config.halfOpenMaxCalls {
        halfOpenCalls := halfOpenCalls + 1;
        return true;
      }
      return false;
    }

    method RecordSuccess()
      modifies this
      ensures old(Valid()) ==> Valid()
      ensures Snapshot() == Success(config, old(Snapshot()))
    {
      if state == HalfOpen {
        successCount := successCount + 1;
        if successCount >= config.halfOpenMaxCalls {
          state := Closed;
          failureCount := 0;
          successCount := 0;
          halfOpenCalls := 0;
        }
      } else if state == Closed {
        if failureCount > 0 {
          failureCount := 0;
        }
      }
    }

    method RecordFailure(now: int)
      modifies this
      ensures old(Valid()) ==> Valid()
      ensures Snapshot() == Failure(config, old(Snapshot()), now)
    {
      lastFailureTime := Some(now);
      if state == HalfOpen {
        state := Open;
        successCount := 0;
        halfOpenCalls := 0;
      } else if state == Closed {
        failureCount := failureCount + 1;
        if failureCount >= config.failureThreshold {
          state := Open;
        }
      }
    }

    /** `get_state`: the reported state string reads back as the current state. */
    function GetState(): (r: BreakerReport)
      reads this
      ensures r.serviceName == serviceName
      ensures StateFromValue(r.state) == Some(state)
      ensures r.failureCount == failureCount && r.successCount == successCount
      ensures r.lastFailureTime == lastFailureTime
    {
      BreakerReport(serviceName, state.Value(), failureCount, successCount, lastFailureTime)
    }
  }

  /** The breakers of all services, created on first use with the service-wide thresholds. */
  class CircuitBreakerService {
    const config: BreakerConfig
    var breakers: map<string, CircuitBreaker>
    /** The state of every breaker, by service name. */
    ghost var States: map<string, BreakerState>
    /** The breaker objects this service owns. */
    ghost var Repr: set<CircuitBreaker>

    ghost predicate Valid()
      reads this, Repr
    {
      && breakers.Keys == States.Keys
      && (forall n :: n in breakers ==>
            && breakers[n] in Repr
            && breakers[n].serviceName == n
            && breakers[n].config == config
            && breakers[n].Snapshot() == States[n])
    }

    /** The state the named breaker has, or would have once created. */
    ghost function StateOf(name: string): BreakerState
      reads this
    {
      if name in States then States[name] else Initial()
    }

    constructor (config: BreakerConfig)
      ensures this.config == config && breakers == map[] && States == map[] && Valid()
    {
      this.config := config;
      breakers := map[];
      States := map[];
      Repr := {};
    }

    /** `get_breaker`: the existing breaker for `name`, or a new closed one. */
    method GetBreaker(name: string) returns (b: CircuitBreaker)
      requires Valid()
      modifies this
      ensures Valid() && fresh(Repr - old(Repr))
      ensures name in breakers && b == breakers[name] && b in Repr
      ensures b.serviceName == name && b.config == config
      ensures b.Snapshot() == old(StateOf(name))
      ensures breakers.Keys == old(breakers.Keys) + {name}
      ensures name in old(breakers) ==> breakers == old(breakers)
      ensures name !in old(breakers) ==> fresh(b) && breakers == old(breakers)[name := b]
      ensures States == old(States)[name := old(StateOf(name))]
    {
      if name !in breakers {
        b := new CircuitBreaker(name, config);
        breakers := breakers[name := b];
        States := States[name := Initial()];
        Repr := Repr + {b};
      }
      b := breakers[name];
    }

    /** After only the named breaker has changed, recording its new state
        restores Valid. */
    twostate lemma Commit(name: string)
      requires old(Valid()) && name in breakers
      requires breakers == old(breakers) && Repr == old(Repr)
      requires States == old(States)[name := breakers[name].Snapshot()]
      requires forall o :: o in Repr && o != breakers[name] ==> unchanged(o)
      ensures Valid()
    {
      forall n | n in breakers && n != name
        ensures breakers[n].Snapshot() == States[n]
      {
        assert breakers[n] != breakers[name];
      }
    }

    /** `is_call_allowed`. */
    method IsCallAllowed(name: string, now: int) returns (admitted: bool)
      requires Valid()
      modifies this, Repr
      ensures Valid() && fresh(Repr - old(Repr))
      ensures admitted == Admit(config, old(StateOf(name)), now).allowed
      ensures States == old(States)[name := Admit(config, old(StateOf(name)), now).next]
    {
      ghost var prior := StateOf(name);
      var b := GetBreaker(name);
      assert b.Snapshot() == prior;
      label Got:
      admitted := b.Call(now);
      States := States[name := b.Snapshot()];
      Commit@Got(name);
    }

    /** `record_success`. */
    method RecordSuccess(name: string)
      requires Valid()
      modifies this, Repr
      ensures Valid() && fresh(Repr - old(Repr))
      ensures States == old(States)[name := Success(config, old(StateOf(name)))]
    {
      ghost var prior := StateOf(name);
      var b := GetBreaker(name);
      assert b.Snapshot() == prior;
      label Got:
      b.RecordSuccess();
      States := States[name := b.Snapshot()];
      Commit@Got(name);
    }

    /** `record_failure` at time `now`. */
    method RecordFailure(name: string, now: int)
      requires Valid()
      modifies this, Repr
      ensures Valid() && fresh(Repr - old(Repr))
      ensures States == old(States)[name := Failure(config, old(StateOf(name)), now)]
    {
      ghost var prior := StateOf(name);
      var b := GetBreaker(name);
      assert b.Snapshot() == prior;
      label Got:
      b.RecordFailure(now);
      States := States[name := b.Snapshot()];
      Commit@Got(name);
    }

    /** `get_all_states`: one report per breaker created so far. */
    function GetAllStates(): (r: map<string, BreakerReport>)
      reads this, Repr
      requires Valid()
      ensures r.Keys == States.Keys
      ensures forall n :: n in r ==>
                (r[n].serviceName == n && StateFromValue(r[n].state) == Some(States[n].state)
                 && r[n].failureCount == States[n].failureCount && r[n].successCount == States[n].successCount
                 && r[n].lastFailureTime == States[n].lastFailureTime)
    {
      map n | n in breakers :: breakers[n].GetState()
    }
  }
}
