/**
  The options records bound from configuration, with the defaults their
  classes declare, and the queued webhook record.
 */
module Config {

  import opened Wrappers
  import Http

  /** Section "Forwarding". A null `PathPrefix` is `None`. */
  datatype ForwardingOptions = ForwardingOptions(
    baseUrl: string,
    healthUrl: string,
    timeoutSeconds: int,
    pathPrefix: Option<string>)

  const DefaultForwardingOptions := ForwardingOptions("", "", 10, Some("webhook"))

  /** Section "Worker". */
  datatype WorkerOptions = WorkerOptions(
    pollIntervalSeconds: int,
    batchSize: int,
    healthCheckIntervalSeconds: int,
    healthFailureThreshold: int,
    healthSuccessThreshold: int)

  const DefaultWorkerOptions := WorkerOptions(30, 16, 60, 3, 3)

  /** Section "Validation": `mode` is "permissive" or "strict". */
  datatype ValidationOptions = ValidationOptions(basePath: string, mode: string)

  const DefaultValidationOptions := ValidationOptions("validations", "permissive")

  /** One captured webhook, as it is queued (it has no query map). */
  datatype WebhookMessage = WebhookMessage(
    endpoint: string,
    contentType: string,
    payload: string,
    headers: Http.Pairs,
    receivedAt: int)

  /** The 2 MiB payload limit. */
  const MaxPayloadBytes: nat := 2 * 1024 * 1024
}
