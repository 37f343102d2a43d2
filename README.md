# Webhook proxy: a verified model of its decision logic

The webhook proxy takes webhooks on `POST /webhook/{endpoint}` and handles
each one in one of two modes:

- **NORMAL mode.** The webhook is forwarded live to a downstream service.
- **QUEUE mode.** The webhook is buffered in a queue.

The proxy enters QUEUE mode when a forward fails or when enough health
probes fail in a row. A background drain loop forwards queued webhooks
again. The proxy returns to NORMAL mode only when health has been stable
and the queue has been found empty often enough.

This project models the proxy's core in Dafny:

- **`Modes`** (`mode_service.dfy`): the mode service.
  - It is a class with the source's fields (mode, last error, three counters).
  - Each of its five operations is one atomic step.
  - It is also a pure state machine (`Step`, `Run`) that carries the
    lemmas about sequences of operations.
- **`Forwarding`** (`forwarder.dfy`): the forwarder.
  - It builds the target URL, the percent-escaped query string and the
    relayed headers.
  - It maps the downstream's answer to a `ForwardResult`.
  - It sets the client timeout.
- **`HealthChecks`** and **`HealthMonitor`**: the health probe decision and
  one tick of the health monitor loop.
- **`QueueWorker`**: one tick of the queue drain loop, over the mode
  service and an in-memory queue (`Queues`).
- **`RequestReader`**: the request reader's size limits, content-type
  default and header filter.
- **`Validation`**: the schema validation service.
  - Strict and permissive policies for a missing schema.
  - Schema file selection with a `default.json` fallback.
  - A last-write-time schema cache, which saving a schema invalidates.
- **`WebhookEndpoint`** (`program.dfy`): the webhook handler's decision
  tree and the default CORS policy.

Supporting modules:

- `Text`: whitespace, ASCII case folding, trimming, joining, splitting and
  decimal digits.
- `Utf8`: the UTF-8 encoding.
- `UriEscaping`: `Uri.EscapeDataString`, which is percent-encoding per
  section 2.1 of RFC 3986, leaving the unreserved set of section 2.3
  unchanged.
- `Http`: request outcomes and the 2xx class of section 15.3 of RFC 9110.
- `Config`: the option records and their defaults.
- `Wrappers`: `Option`.

I/O is replaced by parameters:

| I/O in the source | Parameter in the model |
|---|---|
| The HTTP exchange of a forward or a health probe | an `Outcome`: a status code or an exception message |
| Queue provider failures | flags |
| The serialized size of a queued message | a number |
| The JSON parser | a function from text to an optional canonical JSON text |
| The XML parser | a predicate |
| The schema checker | a function returning the list of violations |
| The file system | a map from path to (content, last-write time) |
| The clock | a number |

Where the parts of the source disagree, the model follows the message
record:

- The queued message record (`Models/WebhookMessage.cs:5-10`) has no query
  field.
- Yet the handler builds it with the request's query
  (`Program.cs:123`), and the drain loop forwards without one
  (`Services/QueueWorkerService.cs:72-77`).
- The model therefore stores no query with a queued webhook, and forwards
  drained webhooks with an empty query.

## Model

| member | source | states |
|---|---|---|
| Modes.ModeService.constructor | src/WebhookProxy/Services/ModeService.cs:12-20 | A new service is in Normal mode with no last error and all three counters zero. |
| Modes.ModeService.ForceQueue | src/WebhookProxy/Services/ModeService.cs:35-47 | After the call the mode is Queue and the last error is the reason. All three counters are zero, whatever the state before. |
| Modes.ModeService.RecordHealthFailure | src/WebhookProxy/Services/ModeService.cs:49-64 | Failures rise by exactly one. Successes and empty drains are zeroed, and the last error is the reason. The mode becomes Queue iff the new failure count reaches the failure threshold; otherwise it is unchanged. |
| Modes.ModeService.RecordHealthSuccess | src/WebhookProxy/Services/ModeService.cs:66-73 | Successes rise by one and failures are zeroed. The mode, the last error and the empty-drain count are unchanged. |
| Modes.ModeService.ResetQueueDrainCounter | src/WebhookProxy/Services/ModeService.cs:75-81 | Only the empty-drain count changes, to zero. |
| Modes.ModeService.MarkQueueDrainedIfStable | src/WebhookProxy/Services/ModeService.cs:83-102 | In Normal mode nothing changes. In Queue mode the empty-drain count rises by one. The mode becomes Normal, with the last error cleared, iff both the success count and the new empty-drain count reach the success threshold. No counter is reset. |
| Modes.OnlyStableDrainRestoresNormal | src/WebhookProxy/Services/ModeService.cs:39-101 | Of all five operations, only a stable empty drain takes Queue mode to Normal. It requires enough health successes and empty drains, and it clears the last error. |
| Modes.DrainedEmptyIdleInNormal | src/WebhookProxy/Services/ModeService.cs:87-90 | In Normal mode, any number of empty-drain calls leave the whole state unchanged. |
| Modes.RunAppend | src/WebhookProxy/Services/ModeService.cs:35-102 | Running two sequences of operations one after the other equals running their concatenation. |
| Modes.QueueHeldWithoutDrain | src/WebhookProxy/Services/ModeService.cs:39-101 | A sequence of operations with no empty-drain call never leaves Queue mode. |
| Modes.FailureStreak | src/WebhookProxy/Services/ModeService.cs:49-64 | k consecutive health failures raise the failure count by k and zero the other counters. They set the last error, and reach Queue mode exactly when the count reaches the threshold. |
| Modes.RecoveryNeedsHealthSuccesses | src/WebhookProxy/Services/ModeService.cs:94-98 | From Queue mode, too few health successes mean the mode stays Queue, whatever else happens. |
| Modes.RecoveryNeedsEmptyDrains | src/WebhookProxy/Services/ModeService.cs:92-98 | From Queue mode, too few empty drains mean the mode stays Queue, whatever else happens. |
| Modes.SuccessStreak | src/WebhookProxy/Services/ModeService.cs:66-73 | k health successes add k to the success count and zero failures (when k > 0). Nothing else changes. |
| Modes.DrainStreak | src/WebhookProxy/Services/ModeService.cs:83-102 | With enough health successes, enough empty drains return Queue mode to Normal with no last error. |
| Modes.StableRunRecovers | src/WebhookProxy/Services/ModeService.cs:66-102 | From Queue mode, at least threshold-many health successes followed by as many empty drains restore Normal mode with no last error. |
| Modes.DefaultFailureThreshold | src/WebhookProxy/Options/WorkerOptions.cs:8 | With the default options, two health failures in a row from a clean Normal state keep Normal mode and the third forces Queue mode. |
| Modes.DefaultRecoveryThreshold | src/WebhookProxy/Options/WorkerOptions.cs:9 | With the default options, Queue mode entered afresh ends after three health successes and three empty drains, and not with only two of either. |
| Forwarding.EffectiveTimeout | src/WebhookProxy/Services/Forwarder.cs:28 | The timeout is always positive. It is the configured seconds when those are positive, and 10 otherwise. |
| Forwarding.Forwarder.constructor | src/WebhookProxy/Services/Forwarder.cs:22-29 | Sets the client's timeout to the effective timeout. |
| Forwarding.ResponseResult | src/WebhookProxy/Services/Forwarder.cs:71-96 | Success iff a 2xx response, and the error is null exactly on success. The status code is present iff a response came back. A non-2xx reason is "Forwarding failed with status " and the code in decimal; an exception's reason is "Forwarding exception: " and its message. |
| Forwarding.ForwardOutcome | src/WebhookProxy/Services/Forwarder.cs:39-89 | Success iff the base URL is configured and the downstream answered 2xx. The error is null exactly on success. A blank base URL gives the not-configured failure with no status; otherwise the result is the mapped response. |
| Forwarding.DefaultForwarding | src/WebhookProxy/Options/ForwardingOptions.cs:5-8 | Under the default options nothing is forwarded (not configured), the timeout is 10 seconds, and with a base URL set every endpoint sits under `/webhook/`. |
| Forwarding.StatusFailureNamesCode | src/WebhookProxy/Services/Forwarder.cs:80-82 | A non-2xx reason is the fixed prefix followed by decimal digits that read back as the status code. |
| Forwarding.EndpointUrlSeams | src/WebhookProxy/Services/Forwarder.cs:44-48 | The URL is the base without trailing slashes, then '/', then the prefix (slashes trimmed at both ends) and '/' when the prefix is non-empty, then the endpoint. The endpoint itself is not trimmed. |
| Forwarding.QueryParts | src/WebhookProxy/Services/Forwarder.cs:52 | One `k=v` part per query pair, in order, with key and value escaped. |
| Forwarding.ParseEncodedPair | src/WebhookProxy/Services/Forwarder.cs:52 | One escaped `k=v` part reads back as its pair. |
| Forwarding.ParseQueryParts | src/WebhookProxy/Services/Forwarder.cs:52 | The escaped parts read back as the original pairs, in order. |
| Forwarding.QueryStringRoundTrip | src/WebhookProxy/Services/Forwarder.cs:50-54 | A non-empty query string splits at '&' and percent-decodes back to exactly the original pairs, in order. |
| Forwarding.OutboundHeadersExactly | src/WebhookProxy/Services/Forwarder.cs:10-16 | A header is relayed iff it is an inbound header whose name is not Content-Length, Host, Connection or Accept-Encoding (ignoring case). Its value is unchanged. |
| Forwarding.RelayHeaders | src/WebhookProxy/Services/Forwarder.cs:61-69 | The loop relays exactly the filtered headers, in their inbound order. |
| Forwarding.Forwarder.TryForward | src/WebhookProxy/Services/Forwarder.cs:31-90 | A blank base URL yields the not-configured failure and no request. Otherwise there is one POST to the target URL (query appended only when non-empty), carrying the payload, the content type and the relayed headers. The result is the mapped outcome. |
| HealthChecks.IsHealthy | src/WebhookProxy/Services/HealthCheckClient.cs:19-42 | A blank health URL is healthy. Otherwise the verdict is healthy iff the probe got a 2xx response; a non-2xx status, a request error or a timeout is unhealthy. |
| HealthChecks.UnconfiguredProbeIgnored | src/WebhookProxy/Services/HealthCheckClient.cs:21-24 | With a blank health URL the probe's outcome cannot affect the verdict. |
| HealthMonitor.HealthTick | src/WebhookProxy/Services/HealthMonitorService.cs:33-40 | A tick records a success or a failure, with no mode check. A healthy tick leaves the mode and the last error unchanged. An unhealthy tick sets the last error to the monitor's reason. |
| HealthMonitor.UnhealthyTicksQueue | src/WebhookProxy/Services/HealthMonitorService.cs:40 | Enough consecutive unhealthy ticks put the proxy in Queue mode, with the monitor's reason as the last error. |
| HealthMonitor.HealthyTicksKeepMode | src/WebhookProxy/Services/HealthMonitorService.cs:33-38 | Any number of healthy ticks keep the mode and the last error, and add to the success count. |
| Queues.Batch | src/WebhookProxy/Services/QueueService.cs:54-64 | A receive yields the oldest min(batchSize, length) messages, and none for a non-positive size. |
| Queues.Without | src/WebhookProxy/Services/QueueService.cs:87-88 | Removes exactly the messages with the given ids and keeps ids distinct. |
| Queues.WithoutTwice | src/WebhookProxy/Services/QueueService.cs:87-88 | Deleting two sets of ids one after the other equals deleting their union. |
| Queues.MessageQueue.constructor | src/WebhookProxy/Services/QueueService.cs:23-39 | A new queue is empty. |
| Queues.MessageQueue.Enqueue | src/WebhookProxy/Services/QueueService.cs:41-52 | A message whose serialized form is above 60,000 bytes is refused with the size error and not queued. A provider failure queues nothing. Otherwise the message is appended under a fresh id. |
| Queues.MessageQueue.ReceiveBatch | src/WebhookProxy/Services/QueueService.cs:54-85 | Returns the head batch. A provider failure reads as an empty batch. |
| Queues.MessageQueue.Delete | src/WebhookProxy/Services/QueueService.cs:87-88 | Exactly the message with that id is gone. |
| QueueWorker.Delivered | src/WebhookProxy/Services/QueueWorkerService.cs:70-84 | The delivered messages are exactly the batch's messages whose forward succeeded. |
| QueueWorker.LastFailure | src/WebhookProxy/Services/QueueWorkerService.cs:70-87 | The position, if any, of the last message in the batch whose forward failed: that forward failed and every later one succeeded; with none, every forward succeeded. |
| QueueWorker.AfterForwardsEffect | src/WebhookProxy/Services/QueueWorkerService.cs:68-87 | Forwarding a batch never leaves Queue mode. If every forward succeeded the state is untouched. Otherwise Queue mode was forced, with zero counters, and the last error is the reason of the last failed forward in the batch (its error, or the drain fallback reason). |
| QueueWorker.DeletesExactlyDelivered | src/WebhookProxy/Services/QueueWorkerService.cs:79-86 | Every message whose forward succeeded is deleted. Every other message, in particular each failed one, stays. |
| QueueWorker.DrainedWithoutQuery | src/WebhookProxy/Services/QueueWorkerService.cs:72-77 | A drained message is sent, when forwarding is configured, as a POST of its stored payload, content type and relayed headers to the endpoint URL with no query string; with a blank base URL nothing is sent. |
| QueueWorker.UnconfiguredDrainSendsNothing | src/WebhookProxy/Services/QueueWorkerService.cs:70-77 | With a blank base URL, draining a batch sends no request at all. |
| QueueWorker.ConfiguredDrainSendsEach | src/WebhookProxy/Services/QueueWorkerService.cs:70-77 | With forwarding configured, draining sends exactly one request per message, even when some fail. |
| QueueWorker.DrainRequestsInOrder | src/WebhookProxy/Services/QueueWorkerService.cs:70-77 | With forwarding configured, the j-th request sent is the one built for the j-th message of the batch. |
| QueueWorker.ForwardBatch | src/WebhookProxy/Services/QueueWorkerService.cs:70-87 | The loop forwards in received order and returns the requests it sent, which are those of `DrainRequests` (no query). It deletes exactly the delivered messages and forces Queue mode on each failure, without aborting the batch. |
| QueueWorker.ForwardOne | src/WebhookProxy/Services/QueueWorkerService.cs:72-86 | One message: the request sent is `DrainRequest` of it (no query); deleted iff the forward succeeded; otherwise the queue is untouched and Queue mode is forced with the error or the drain fallback reason. |
| QueueWorker.DrainTick | src/WebhookProxy/Services/QueueWorkerService.cs:43-87 | Normal mode: no state change. Unhealthy: one health failure with the drain reason and no receive. Healthy: a success is recorded before the receive. An empty batch: one empty-drain call. A non-empty batch: the drain counter is reset, the batch is forwarded, the mode is Queue at the end, the queue loses exactly the delivered messages, and the requests sent are those of the batch. No request is sent on the other paths. |
| RequestReader.KeptHeadersExactly | src/WebhookProxy/Services/WebhookRequestReader.cs:34-37 | Every header except Content-Length and Host (ignoring case) is kept, with its value. |
| RequestReader.EffectiveContentType | src/WebhookProxy/Services/WebhookRequestReader.cs:30-32 | A missing or blank content type becomes "application/json"; any other is kept unchanged. |
| RequestReader.ReadRequest | src/WebhookProxy/Services/WebhookRequestReader.cs:15-43 | Refused with the 2MB error iff the declared length or the body's UTF-8 byte count exceeds 2,097,152. Otherwise the body is unchanged, the content type defaulted, the headers filtered and the query kept. |
| RequestReader.ExactLimitAccepted | src/WebhookProxy/Services/WebhookRequestReader.cs:16-25 | A body of exactly 2,097,152 UTF-8 bytes is accepted, since the comparison is strict. |
| Utf8.ByteCountIsEncodedLength | src/WebhookProxy/Services/WebhookRequestReader.cs:25 | The byte count used by the size limit is the length of the UTF-8 encoding. |
| Utf8.DecodeEncode | src/WebhookProxy/Services/WebhookRequestReader.cs:21-25 | UTF-8 decoding of the encoding returns the original text. |
| UriEscaping.NoQueryDelimiters | src/WebhookProxy/Services/Forwarder.cs:52 | Escaped text never contains '&' or '='. |
| UriEscaping.EscapeDataStringRoundTrip | src/WebhookProxy/Services/Forwarder.cs:52 | Percent-decoding escaped text returns the original. |
| UriEscaping.UnreservedUnchanged | src/WebhookProxy/Services/Forwarder.cs:52 | Text made of unreserved characters is left as is. |
| UriEscaping.ReservedEscaped | src/WebhookProxy/Services/Forwarder.cs:52 | Any other character is percent-encoded. |
| UriEscaping.SpaceEscape | src/WebhookProxy/Services/Forwarder.cs:52 | "1 2" escapes to "1%202". |
| Validation.ValidationDirectory | src/WebhookProxy/Services/ValidationService.cs:86-91 | A rooted base path is used as is; otherwise it is combined with the app's base directory. |
| Validation.SelectSchemaPath | src/WebhookProxy/Services/ValidationService.cs:61-72 | The endpoint's own file if it exists, else `default.json` if it exists, else none. A chosen path always exists. |
| Validation.Verdict | src/WebhookProxy/Services/ValidationService.cs:27-44 | Missing schema: fails with the not-found error in strict mode (ignoring case), else succeeds. With a schema: succeeds iff there are no violations, else fails with them joined by "; ". The error is null exactly on success. |
| Validation.DefaultValidation | src/WebhookProxy/Options/ValidationOptions.cs:5-6 | Under the default options a missing schema is a success (permissive mode), and schemas are read from `validations` under the app's base directory. |
| Validation.CoherentLoadIsCurrent | src/WebhookProxy/Services/ValidationService.cs:74-83 | While the cache agrees with the files, a load returns the schema of the current file content and keeps the cache in agreement. |
| Validation.SaveThenLoad | src/WebhookProxy/Services/ValidationService.cs:47-57 | Saving keeps the cache in agreement with the files, and the next load for that endpoint returns the saved schema. |
| Validation.FileSystem.WriteAllText | src/WebhookProxy/Services/ValidationService.cs:53 | The path now holds the new content, stamped with the write time; other files are unchanged. |
| Validation.ValidationService.constructor | src/WebhookProxy/Services/ValidationService.cs:13-21 | A new service has an empty cache. |
| Validation.ValidationService.LoadSchema | src/WebhookProxy/Services/ValidationService.cs:59-84 | The cached schema is reused iff its entry is not older than the file. Otherwise the file is loaded and its entry overwritten. With no schema file, nothing changes. |
| Validation.ValidationService.Validate | src/WebhookProxy/Services/ValidationService.cs:23-45 | The result is the verdict for the schema the load returns, with the cache updated as the load does. |
| Validation.ValidationService.SaveSchema | src/WebhookProxy/Services/ValidationService.cs:47-57 | Writes `<endpoint>.json` and removes exactly that path from the cache; other entries are untouched. |
| WebhookEndpoint.DefaultCorsPolicy | src/WebhookProxy/Program.cs:16-31 | Any origin iff the configured list is missing, empty or contains "*". Otherwise exactly the listed origins. |
| WebhookEndpoint.CorsOriginAllowed | src/WebhookProxy/Program.cs:16-31 | An origin is allowed iff the list is open or names it. |
| WebhookEndpoint.Classify | src/WebhookProxy/Program.cs:82-110 | JSON iff the lower-cased content type contains "json". XML iff it does not, but contains "xml". |
| WebhookEndpoint.Admit | src/WebhookProxy/Program.cs:66-121 | A blank endpoint gives 400 before reading; a size failure gives 413. A JSON body that parses goes on to schema validation with the parsed text, and one that does not gives 400 with the invalid-JSON error. An XML body that parses goes on, and one that does not gives 400 with the invalid-XML error. Any other type goes on unchecked. After a successful read, the request stops iff a JSON or XML parse failed. |
| WebhookEndpoint.Dispatch | src/WebhookProxy/Program.cs:125-171 | 200 iff Normal mode and the forward succeeded. 202 iff the webhook was queued, either because of Queue mode (no reason) or after a failed forward (the forward's error as the reason). When an enqueue was needed, a too-large message gives 413 with the size error and any other enqueue failure gives 500 with the enqueue error. |
| WebhookEndpoint.ForwardOrQueue | src/WebhookProxy/Program.cs:125-171 | Queue mode: only an enqueue, no forward. Normal mode: one forward of the read request; on failure Queue mode is forced before the enqueue. The answer is `Dispatch` of the mode, the forward result and the enqueue result, and a message is appended iff an enqueue was attempted and succeeded. |
| WebhookEndpoint.QueuedAfterFailureGivesReason | src/WebhookProxy/Program.cs:166-171 | A 202 after a failed forward carries the forwarder's error as its reason. |
| WebhookEndpoint.RelayedAfterReading | src/WebhookProxy/Services/WebhookRequestReader.cs:34-37 | Relaying the headers the reader kept equals relaying the original headers, since the reader drops only restricted ones. |
| WebhookEndpoint.HandleWebhook | src/WebhookProxy/Program.cs:56-172 | Admission rejections (400, and 413 for an oversized body) and validation failures (422) change no mode or queue state; a valid verdict never gives 422, so the webhook goes on to forward or queue. In Queue mode nothing is forwarded. A forwarded request carries the reader's body, content type, query and the relayed headers. A failed forward forces Queue mode (with the error or "Forwarding failed") before the enqueue, whatever the enqueue outcome. A 202 means exactly one message was appended to the queue. Only 200, 202, 400, 413, 422 and 500 are answered. |

## Left out

- Concurrency: the service's lock and the unlocked read of the last error. Each mode-service method is one atomic step.
- The timer loops and cancellation of the two background services. One tick of each is modelled.
- The Azure Queue SDK. The queue is an in-memory sequence in which receive returns the head batch and leaves it in place; message visibility timeouts and pop receipts are not modelled.
- The JSON serializer: queued messages are not serialized or deserialized. The serialized size is a parameter, and a message that fails to deserialize on receive is not modelled.
- JSON parsing, XML parsing and schema checking are parameters. The JSON text handed to the checker is the parser's output. A body that parses to JSON `null` raises an exception in the source once a schema has been loaded (with no schema the verdict comes first), and a schema file that does not parse raises one too; neither is modelled.
- Case-insensitive comparison and lower-casing fold ASCII letters only; culture-invariant folding of other letters is not modelled.
- Counter overflow: the mode counters are unbounded naturals, whereas the source's 32-bit counters would wrap only after about two billion calls.
- Forwarding.Forwarder.TryForward: `TryAddWithoutValidation` rejecting content headers is not modelled. Neither is the media-type check of `StringContent`: a content type with parameters ("application/json; charset=utf-8", say) throws before the `try`, so the handler answers 500 without forcing Queue mode or enqueueing, and the drain loop stops on such a stored message. The model accepts every content type. Exceptions other than request errors and timeouts (an invalid URL, say) propagate in the source; here they cannot arise.
- Queues.Batch: batch sizes above 32 are not modelled. The Azure Queue service refuses such a receive; the error is caught and the receive yields an empty batch, which the drain loop counts as an empty drain (the model's `receiveFails` flag). Here such a size takes the oldest messages like any other.
- Forwarding.Forwarder.constructor: `HttpClient.Timeout` refuses more than `int.MaxValue` milliseconds, so a `TimeoutSeconds` of 2,147,484 or more makes the source's constructor throw; the model accepts any positive timeout.
- HealthChecks.IsHealthy: the probe's catch covers only request errors and timeouts. A relative health URL or a non-HTTP scheme raises another exception that escapes the probe and the calling loop; `Outcome` cannot express it, so every probe here ends in a status or a caught exception.
- Strings are sequences of Unicode scalar values, whereas C# strings are UTF-16 code units: a lone surrogate, which the UTF-8 byte count counts as a 3-byte replacement character, cannot occur in the model.
- Header and query collections are sequences of name/value pairs, one value string per name; joining multi-value headers is not modelled.
- Validation: paths follow Unix rules. Directory creation is not modelled, and neither is a file being removed between the existence check and the read.
- WebhookEndpoint.DefaultCorsPolicy: origins are compared exactly; the framework's normalisation of listed origins is not modelled.
- The `/validations`, `/status` and `/health` endpoints, Swagger, logging, dependency injection and configuration binding are not modelled.
