/** The downstream health probe (`HealthCheckClient.IsHealthyAsync`). */
module HealthChecks {

  import opened Text
  import opened Http
  import opened Config

  /**
    Healthy, without a probe, when no health URL is configured; otherwise
    healthy exactly when the probe's GET answered with a 2xx status. A
    request exception or a timeout reads as unhealthy.
   */
  function IsHealthy(options: ForwardingOptions, probe: Outcome): (healthy: bool)
    ensures IsBlank(options.healthUrl) ==> healthy
    ensures !IsBlank(options.healthUrl) ==>
      (healthy <==> probe.Response? && IsSuccessStatusCode(probe.statusCode))
  {
    if IsBlank(options.healthUrl) then true
    else match probe
      case Response(code) => IsSuccessStatusCode(code)
      case Exception(_) => false
  }

  /** With no health URL the probe's outcome cannot matter: no request is made. */
  lemma UnconfiguredProbeIgnored(options: ForwardingOptions, p: Outcome, q: Outcome)
    requires IsBlank(options.healthUrl)
    ensures IsHealthy(options, p) == IsHealthy(options, q)
  {
  }
}
