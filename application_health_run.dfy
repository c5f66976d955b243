/** The health checker of an application: a fixed list of checks whose
    answers are folded into an HTTP status. */
module ApplicationHealth {

  import opened Wrappers
  import Json
  import opened HealthChecks

  datatype HealthServerConfig = HealthServerConfig(bindAddr: string, workers: nat)

  /** The default: local IPv4 port 9090, one worker. */
  function DefaultConfig(): (c: HealthServerConfig)
    ensures c.bindAddr == "127.0.0.1:9090" && c.workers == 1
  {
    HealthServerConfig("127.0.0.1:9090", 1)
  }

  datatype HealthChecker = HealthChecker(checks: seq<HealthCheck>)

  /** `HealthChecker::is_ready`: each check's readiness, in order. */
  function IsReadyAll(checker: HealthChecker): (r: seq<CheckResult>)
    ensures |r| == |checker.checks|
    ensures forall i :: 0 <= i < |r| ==> r[i] == IsReady(checker.checks[i])
  {
    AskAll(checker.checks, Readiness)
  }

  /** `HealthChecker::is_alive`: each check's liveness, in order. */
  function IsAliveAll(checker: HealthChecker): (r: seq<CheckResult>)
    ensures |r| == |checker.checks|
    ensures forall i :: 0 <= i < |r| ==> r[i] == IsAlive(checker.checks[i])
  {
    AskAll(checker.checks, Liveness)
  }

  /** Collecting the results into one: Ok when all are Ok, else the first
      error. */
  function Collect(results: seq<CheckResult>): (r: Result<(), HealthCheckError>)
    ensures r.Ok? <==> forall i :: 0 <= i < |results| ==> results[i].Ok?
    ensures r.Err? ==>
      exists k :: 0 <= k < |results| && results[k] == r && (forall i :: 0 <= i < k ==> results[i].Ok?)
  {
    if results == [] then Ok(())
    else if results[0].Err? then results[0]
    else
      var rest := Collect(results[1..]);
      if rest.Err? then
        var k :| 0 <= k < |results| - 1 && results[1..][k] == rest
          && forall i :: 0 <= i < k ==> results[1..][i].Ok?;
        assert results[k + 1] == rest;
        rest
      else rest
  }

  const OK := 200
  const SERVICE_UNAVAILABLE := 503

  /** The JSON body `{"success": b}`. */
  function SuccessBody(success: bool): Json.Value
  {
    Json.Object(map["success" := Json.Bool(success)])
  }

  /** `run_checks` on the answers of a probe. */
  function RunChecks(results: seq<CheckResult>): (r: (int, Json.Value))
    ensures r.0 == OK <==> forall i :: 0 <= i < |results| ==> results[i].Ok?
    ensures r.0 == OK ==> r.1 == SuccessBody(true)
    ensures r.0 != OK ==> r == (SERVICE_UNAVAILABLE, SuccessBody(false))
  {
    match Collect(results)
    case Ok(_) => (OK, SuccessBody(true))
    case Err(_) => (SERVICE_UNAVAILABLE, SuccessBody(false))
  }

  /** With no checks registered, the application is ready and alive. */
  lemma NoChecksHealthy(probe: Probe)
    ensures RunChecks(AskAll([], probe)).0 == OK
  {
  }

  /** One failing check makes the endpoint report 503, wherever it is. */
  lemma OneFailureUnavailable(checks: seq<HealthCheck>, probe: Probe, k: nat)
    requires k < |checks| && Ask(checks[k], probe).Err?
    ensures RunChecks(AskAll(checks, probe)) == (SERVICE_UNAVAILABLE, SuccessBody(false))
  {
    assert AskAll(checks, probe)[k].Err?;
  }
}
