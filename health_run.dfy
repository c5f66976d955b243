/** The runtime's health checker: a list of checks shared by every handle to
    it, which checks can be added to while the application starts. */
module Health {

  import Json
  import opened HealthChecks
  import ApplicationHealth

  datatype HealthServerConfig = HealthServerConfig(enabled: bool, bindAddr: string, workers: nat)

  /** The default: disabled, local IPv6 port 9090, one worker. */
  function DefaultConfig(): (c: HealthServerConfig)
    ensures !c.enabled && c.bindAddr == "[::1]:9090" && c.workers == 1
  {
    HealthServerConfig(false, "[::1]:9090", 1)
  }

  /** The shared check list; every clone of the checker is this object. */
  class HealthChecker {
    var checks: seq<HealthCheck>

    /** `HealthChecker::default`: no checks. */
    constructor ()
      ensures checks == []
    {
      checks := [];
    }

    /** `is_ready`: one readiness answer per registered check, in order. */
    function IsReady(): (r: seq<CheckResult>)
      reads this
      ensures |r| == |checks|
      ensures forall i :: 0 <= i < |r| ==> r[i] == HealthChecks.IsReady(checks[i])
    {
      AskAll(checks, Readiness)
    }

    /** `is_alive`: one liveness answer per registered check, in order. */
    function IsAlive(): (r: seq<CheckResult>)
      reads this
      ensures |r| == |checks|
      ensures forall i :: 0 <= i < |r| ==> r[i] == HealthChecks.IsAlive(checks[i])
    {
      AskAll(checks, Liveness)
    }

    /** `push`: the check is appended. */
    method Push(check: HealthCheck)
      modifies this
      ensures checks == old(checks) + [check]
    {
      checks := checks + [check];
    }

    /** `extend`: the checks are appended, in order. */
    method Extend(more: seq<HealthCheck>)
      modifies this
      ensures checks == old(checks) + more
    {
      checks := checks + more;
    }
  }

  /** `run_checks`: 200 with `{"success": true}` exactly when every check
      answers Ok, else 503 with `{"success": false}`. */
  function RunChecks(checker: HealthChecker, probe: Probe): (r: (int, Json.Value))
    reads checker
    ensures r.0 == ApplicationHealth.OK <==> forall i :: 0 <= i < |checker.checks| ==> Ask(checker.checks[i], probe).Ok?
    ensures r.0 == ApplicationHealth.OK ==> r.1 == ApplicationHealth.SuccessBody(true)
    ensures r.0 != ApplicationHealth.OK ==> r == (ApplicationHealth.SERVICE_UNAVAILABLE, ApplicationHealth.SuccessBody(false))
  {
    ApplicationHealth.RunChecks(AskAll(checker.checks, probe))
  }

  /** Adding checks never turns an unhealthy checker healthy: the list only
      grows and earlier answers stay. */
  lemma ExtendingKeepsFailures(before: seq<HealthCheck>, more: seq<HealthCheck>, probe: Probe)
    requires ApplicationHealth.RunChecks(AskAll(before, probe)).0 != ApplicationHealth.OK
    ensures ApplicationHealth.RunChecks(AskAll(before + more, probe)).0 != ApplicationHealth.OK
  {
    var k :| 0 <= k < |before| && Ask(before[k], probe).Err?;
    assert (before + more)[k] == before[k];
    ApplicationHealth.OneFailureUnavailable(before + more, probe, k);
  }
}
