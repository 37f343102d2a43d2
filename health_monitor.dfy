/** One tick of the periodic health monitor (`HealthMonitorService.ExecuteAsync`). */
module HealthMonitor {

  import opened Wrappers
  import opened Http
  import opened Config
  import opened Modes
  import opened HealthChecks

  const RemoteHealthCheckFailed := "Remote health-check failed"

  /** The operation a tick applies: the same in both modes. */
  function TickEvent(healthy: bool): Event
  {
    if healthy then HealthSucceeded else HealthFailed(RemoteHealthCheckFailed)
  }

  /** Probe, then record the verdict on the shared mode service. */
  method HealthTick(svc: ModeService, forwarding: ForwardingOptions, probe: Outcome)
    modifies svc
    ensures svc.State() == Step(svc.options, old(svc.State()), TickEvent(IsHealthy(forwarding, probe)))
    ensures IsHealthy(forwarding, probe) ==>
      svc.mode == old(svc.mode) && svc.lastError == old(svc.lastError)
    ensures !IsHealthy(forwarding, probe) ==> svc.lastError == Some(RemoteHealthCheckFailed)
  {
    var healthy := IsHealthy(forwarding, probe);
    if healthy {
      svc.RecordHealthSuccess();
      return;
    }
    svc.RecordHealthFailure(RemoteHealthCheckFailed);
  }

  /**
    Enough consecutive unhealthy ticks, with no healthy one in between, put
    the proxy in Queue mode with the monitor's reason as the last error.
   */
  lemma UnhealthyTicksQueue(options: WorkerOptions, s: ModeState, k: nat)
    requires k >= 1 && s.healthFailures + k >= options.healthFailureThreshold
    ensures var t := Run(options, s, Repeat(TickEvent(false), k));
      t.mode == Queue && t.lastError == Some(RemoteHealthCheckFailed)
  {
    FailureStreak(options, s, RemoteHealthCheckFailed, k);
  }

  /** Healthy ticks never change the mode or the last error. */
  lemma HealthyTicksKeepMode(options: WorkerOptions, s: ModeState, k: nat)
    ensures var t := Run(options, s, Repeat(TickEvent(true), k));
      t.mode == s.mode && t.lastError == s.lastError && t.healthSuccesses == s.healthSuccesses + k
  {
    SuccessStreak(options, s, k);
  }
}
