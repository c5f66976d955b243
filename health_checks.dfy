/** Health checks: the error a check reports and the default answers of a
    check that does not override them. */
module HealthChecks {

  import opened Wrappers

  /** `Failed` carries the display text of the underlying error. */
  datatype HealthCheckError = Failed(cause: string) | NotOk(reason: string)

  type CheckResult = Result<(), HealthCheckError>

  /** The `Display` text of a health-check error. */
  function Message(e: HealthCheckError): (m: string)
    ensures e.Failed? ==> m == "Health check failed: " + e.cause
    ensures e.NotOk? ==> m == "Not OK: " + e.reason
  {
    match e
    case Failed(cause) => "Health check failed: " + cause
    case NotOk(reason) => "Not OK: " + reason
  }

  /** The two kinds of error never display alike. */
  lemma MessagesTellKindsApart(cause: string, reason: string)
    ensures Message(Failed(cause)) != Message(NotOk(reason))
  {
    var m1 := Message(Failed(cause));
    var m2 := Message(NotOk(reason));
    assert m1[0] == 'H' && m2[0] == 'N';
  }

  /** `From<Box<E>>`: any boxed error becomes a failure carrying its text. */
  function FromError(display: string): (e: HealthCheckError)
    ensures e.Failed? && Message(e) == "Health check failed: " + display
  {
    Failed(display)
  }

  /** `HealthCheckError::nok`. */
  function Nok(reason: string): (r: CheckResult)
    ensures r.Err? && r.error.NotOk? && Message(r.error) == "Not OK: " + reason
  {
    Err(NotOk(reason))
  }

  /** A registered check: the answers it gives, None where it keeps the
      default implementation. */
  datatype HealthCheck = HealthCheck(ready: Option<CheckResult>, alive: Option<CheckResult>)

  /** A check that overrides nothing. */
  const DEFAULT_CHECK := HealthCheck(None, None)

  /** `HealthChecked::is_ready`. */
  function IsReady(c: HealthCheck): (r: CheckResult)
    ensures c.ready.None? ==> r == Ok(())
    ensures c.ready.Some? ==> r == c.ready.value
  {
    if c.ready.Some? then c.ready.value else Ok(())
  }

  /** `HealthChecked::is_alive`. */
  function IsAlive(c: HealthCheck): (r: CheckResult)
    ensures c.alive.None? ==> r == Ok(())
    ensures c.alive.Some? ==> r == c.alive.value
  {
    if c.alive.Some? then c.alive.value else Ok(())
  }

  /** Which of the two questions a health endpoint asks. */
  datatype Probe = Readiness | Liveness

  function Ask(c: HealthCheck, probe: Probe): CheckResult
  {
    match probe
    case Readiness => IsReady(c)
    case Liveness => IsAlive(c)
  }

  /** One answer per check, in order. */
  function AskAll(checks: seq<HealthCheck>, probe: Probe): (r: seq<CheckResult>)
    ensures |r| == |checks|
    ensures forall i :: 0 <= i < |checks| ==> r[i] == Ask(checks[i], probe)
  {
    if checks == [] then [] else [Ask(checks[0], probe)] + AskAll(checks[1..], probe)
  }

  /** A check that keeps both defaults is always healthy. */
  lemma DefaultCheckHealthy(probe: Probe)
    ensures Ask(DEFAULT_CHECK, probe) == Ok(())
  {
  }
}
