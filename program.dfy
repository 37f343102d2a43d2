/**
  The host's default CORS policy and the `POST /webhook/{endpoint}` handler:
  read and size-check the request, check the payload against its declared
  kind (JSON is also validated against the endpoint's schema), then forward
  it in NORMAL mode or queue it in QUEUE mode, switching to QUEUE mode and
  queueing when a forward fails.

  JSON and XML parsing are parameters: `parseJson` yields the parsed
  document's JSON text or `None` when the text does not parse, `parseXml`
  says whether the text is a well-formed XML document.
 */
module WebhookEndpoint {

  import opened Wrappers
  import opened Text
  import opened Http
  import opened Config
  import opened Modes
  import opened Queues
  import opened Forwarding
  import opened RequestReader
  import opened Validation

  // ---------------------------------------------------------------------------
  // CORS
  // ---------------------------------------------------------------------------

  datatype CorsPolicy = AnyOrigin | Origins(origins: seq<string>)

  /**
    The default policy from `Cors:AllowedOrigins` (a missing section is
    `None`): any origin when the list is missing, empty or holds "*",
    otherwise exactly the listed origins.
   */
  function DefaultCorsPolicy(allowedOrigins: Option<seq<string>>): (p: CorsPolicy)
    ensures p.AnyOrigin? <==> allowedOrigins.None? || |allowedOrigins.value| == 0 || "*" in allowedOrigins.value
    ensures p.Origins? ==> p.origins == allowedOrigins.value
  {
    var origins := allowedOrigins.GetOr([]);
    if |origins| == 0 || "*" in origins then AnyOrigin else Origins(origins)
  }

  predicate OriginAllowed(policy: CorsPolicy, origin: string)
  {
    policy.AnyOrigin? || origin in policy.origins
  }

  /** An origin is allowed exactly when the list is open or names it. */
  lemma CorsOriginAllowed(allowedOrigins: Option<seq<string>>, origin: string)
    ensures OriginAllowed(DefaultCorsPolicy(allowedOrigins), origin) <==>
      allowedOrigins.None? || |allowedOrigins.value| == 0 || "*" in allowedOrigins.value
      || origin in allowedOrigins.value
  {
  }

  // ---------------------------------------------------------------------------
  // Responses
  // ---------------------------------------------------------------------------

  datatype Response =
    | BadRequest(error: string)                   // 400 with an `error` body
    | Problem(code: nat, detail: string)          // a problem-details response
    | ValidationProblem(error: string)            // 422 with a `validation` error
    | Ok(status: string, mode: string)            // 200
    | Accepted(location: string, status: string, mode: string, reason: Option<string>) // 202

  function StatusCode(r: Response): nat
  {
    match r
    case BadRequest(_) => 400
    case Problem(code, _) => code
    case ValidationProblem(_) => 422
    case Ok(_, _) => 200
    case Accepted(_, _, _, _) => 202
  }

  const EndpointRequiredError := "Endpoint is required"
  const InvalidJsonError := "Invalid JSON payload"
  const InvalidXmlError := "Invalid XML payload"
  const ValidationFailedError := "Validation failed"
  const EnqueueFailedError := "Failed to enqueue payload"
  const ForceQueueFallback := "Forwarding failed"
  const QueuedReasonFallback := "forwarding_failed"

  // ---------------------------------------------------------------------------
  // Before any state changes
  // ---------------------------------------------------------------------------

  datatype PayloadKind = Json | Xml | Other

  /** JSON when the lower-cased content type mentions "json", else XML when it mentions "xml". */
  function Classify(contentType: string): (k: PayloadKind)
    ensures k == Json <==> Contains(ToLower(contentType), "json")
    ensures k == Xml <==> !Contains(ToLower(contentType), "json") && Contains(ToLower(contentType), "xml")
  {
    var lowered := ToLower(contentType);
    if Contains(lowered, "json") then Json
    else if Contains(lowered, "xml") then Xml
    else Other
  }

  /** Where the handler stands once the request is read and its payload parsed. */
  datatype Prelude =
    | Stop(response: Response)
    | CheckSchema(read: ReadResult, json: string)
    | Proceed(read: ReadResult)

  function Admit(endpoint: string, req: IncomingRequest,
                 parseJson: string -> Option<string>, parseXml: string -> bool): (p: Prelude)
    ensures IsBlank(endpoint) ==> p == Stop(BadRequest(EndpointRequiredError))
    ensures !IsBlank(endpoint) && ReadRequest(req).TooLarge? ==> p == Stop(Problem(413, PayloadTooLargeError))
    ensures p.Stop? ==> StatusCode(p.response) in {400, 413}
    ensures !p.Stop? ==> !IsBlank(endpoint) && p.read == ReadRequest(req) && p.read.Read?
    ensures !p.Stop? ==> (p.CheckSchema? <==> Classify(p.read.contentType) == Json)
    ensures p.CheckSchema? ==> parseJson(p.read.body) == Some(p.json)
    ensures p.Proceed? && Classify(p.read.contentType) == Xml ==> parseXml(p.read.body)
    ensures !IsBlank(endpoint) && ReadRequest(req).Read? ==>
      var read := ReadRequest(req);
      && (Classify(read.contentType) == Json && parseJson(read.body).None? ==>
            p == Stop(Problem(400, InvalidJsonError)))
      && (Classify(read.contentType) == Json && parseJson(read.body).Some? ==>
            p == CheckSchema(read, parseJson(read.body).value))
      && (Classify(read.contentType) == Xml && !parseXml(read.body) ==>
            p == Stop(Problem(400, InvalidXmlError)))
      && (Classify(read.contentType) == Xml && parseXml(read.body) ==> p == Proceed(read))
      && (Classify(read.contentType) == Other ==> p == Proceed(read))
      && (p.Stop? <==> (Classify(read.contentType) == Json && parseJson(read.body).None?) ||
                       (Classify(read.contentType) == Xml && !parseXml(read.body)))
  {
    if IsBlank(endpoint) then Stop(BadRequest(EndpointRequiredError))
    else
      var read := ReadRequest(req);
      if read.TooLarge? then Stop(Problem(413, read.message))
      else
        match Classify(read.contentType)
        case Json =>
          (match parseJson(read.body)
           case None => Stop(Problem(400, InvalidJsonError))
           case Some(json) => CheckSchema(read, json))
        case Xml => if parseXml(read.body) then Proceed(read) else Stop(Problem(400, InvalidXmlError))
        case Other => Proceed(read)
  }

  /** The webhook as it would be queued. */
  function Message(endpoint: string, read: ReadResult, now: int): WebhookMessage
    requires read.Read?
  {
    WebhookMessage(endpoint, read.contentType, read.body, read.headers, now)
  }

  // ---------------------------------------------------------------------------
  // Forward or queue
  // ---------------------------------------------------------------------------

  function EnqueueResponse(r: EnqueueResult, endpoint: string, reason: Option<string>): Response
  {
    match r
    case Enqueued => Accepted("/queue/" + endpoint, "queued", "QUEUE", reason)
    case SizeExceeded(message) => Problem(413, message)
    case ProviderFailed => Problem(500, EnqueueFailedError)
  }

  /**
    The answer once the payload is admitted, given the mode on arrival, what
    the forward attempt returned and what the enqueue returned.
   */
  function Dispatch(mode: ProxyMode, endpoint: string, forward: ForwardResult, enqueue: EnqueueResult): (r: Response)
    ensures StatusCode(r) in {200, 202, 413, 500}
    ensures r.Ok? <==> mode == Normal && forward.success
    ensures r.Accepted? <==> (mode == Queue || !forward.success) && enqueue == Enqueued
    ensures !r.Ok? && enqueue.SizeExceeded? ==> r == Problem(413, enqueue.message)
    ensures !r.Ok? && enqueue.ProviderFailed? ==> r == Problem(500, EnqueueFailedError)
    ensures mode == Queue && enqueue.Enqueued? ==> r == Accepted("/queue/" + endpoint, "queued", "QUEUE", None)
    ensures mode == Normal && !forward.success && enqueue.Enqueued? ==>
      r == Accepted("/queue/" + endpoint, "queued", "QUEUE", Some(forward.error.GetOr(QueuedReasonFallback)))
  {
    if mode.Queue? then EnqueueResponse(enqueue, endpoint, None)
    else if forward.success then Ok("forwarded", "NORMAL")
    else EnqueueResponse(enqueue, endpoint, Some(forward.error.GetOr(QueuedReasonFallback)))
  }

  /** A 202 after a failed forward carries the forwarder's error as its reason. */
  lemma QueuedAfterFailureGivesReason(options: ForwardingOptions, send: Outcome, endpoint: string)
    requires !ForwardOutcome(options, send).success
    ensures var forward := ForwardOutcome(options, send);
      forward.error.Some? &&
      Dispatch(Normal, endpoint, forward, Enqueued) ==
        Accepted("/queue/" + endpoint, "queued", "QUEUE", Some(forward.error.value))
  {
  }

  /**
    The headers a queued or forwarded webhook finally carries: relaying what
    the reader kept is the same as relaying the original headers, because
    everything the reader drops the forwarder drops too.
   */
  lemma {:induction false} RelayedAfterReading(headers: Pairs)
    ensures OutboundHeaders(KeptHeaders(headers)) == OutboundHeaders(headers)
    decreases |headers|
  {
    if headers != [] {
      var init := headers[..|headers| - 1];
      var last := headers[|headers| - 1];
      RelayedAfterReading(init);
      if IsDroppedHeader(last.0) {
        if EqualsIgnoreCase(last.0, "Content-Length") {
          assert "Content-Length" in RestrictedHeaders;
        } else {
          assert "Host" in RestrictedHeaders;
        }
        assert IsRestricted(last.0);
        assert KeptHeaders(headers) == KeptHeaders(init);
      } else {
        assert KeptHeaders(headers) == KeptHeaders(init) + [last];
        assert (KeptHeaders(init) + [last])[..|KeptHeaders(init) + [last]| - 1] == KeptHeaders(init);
      }
    }
  }

  /**
    The `/webhook/{endpoint}` handler. `send` is what the forward attempt
    meets, `serializedSize` and `providerFails` what the enqueue meets, and
    `now` the arrival time. `forwarded` is the outbound request the
    forwarder built, if it built one.
   */
  method HandleWebhook(
    svc: ModeService, queue: MessageQueue, validator: ValidationService, fs: FileSystem,
    forwarder: Forwarder, checker: SchemaChecker,
    parseJson: string -> Option<string>, parseXml: string -> bool,
    endpoint: string, req: IncomingRequest,
    send: Outcome, serializedSize: nat, providerFails: bool, now: int)
    returns (response: Response, forwarded: Option<OutboundRequest>)
    requires queue.Valid()
    modifies svc, queue, validator
    ensures queue.Valid()
    ensures var p := Admit(endpoint, req, parseJson, parseXml);
      p.Stop? ==> response == p.response && unchanged(svc, queue, validator)
    ensures var p := Admit(endpoint, req, parseJson, parseXml);
      p.CheckSchema? ==>
        var (schema, cache') := LoadStep(old(validator.cache), fs.files, validator.Directory(), endpoint);
        var verdict := Verdict(validator.options.mode, schema, Violations(checker, schema, p.json));
        && validator.cache == cache'
        && (!verdict.isValid ==>
              response == ValidationProblem(verdict.error.GetOr(ValidationFailedError)) && unchanged(svc, queue))
        && (verdict.isValid ==> !response.ValidationProblem?)
    ensures var p := Admit(endpoint, req, parseJson, parseXml);
      var forward := ForwardOutcome(forwarder.options, send);
      var enqueue := EnqueueOutcome(serializedSize, providerFails);
      && !(p.Stop? || (p.CheckSchema? && response.ValidationProblem?))
      ==>
        && (p.Proceed? ==> unchanged(validator))
        && response == Dispatch(old(svc.mode), endpoint, forward, enqueue)
        && svc.State() == (if old(svc.mode) == Normal && !forward.success
                           then Step(svc.options, old(svc.State()), Forced(forward.error.GetOr(ForceQueueFallback)))
                           else old(svc.State()))
        && (if (old(svc.mode) == Queue || !forward.success) && enqueue == Enqueued
            then exists id :: queue.messages == old(queue.messages) + [Stored(id, Message(endpoint, p.read, now))]
            else queue.messages == old(queue.messages))
    ensures var p := Admit(endpoint, req, parseJson, parseXml);
      forwarded.Some? ==>
        && old(svc.mode) == Normal && !p.Stop? && !response.ValidationProblem?
        && forwarded.value == OutboundRequest("POST", TargetUrl(forwarder.options, endpoint, p.read.query),
                                              p.read.body, p.read.contentType, OutboundHeaders(req.headers))
    ensures var p := Admit(endpoint, req, parseJson, parseXml);
      old(svc.mode) == Normal && !p.Stop? && !response.ValidationProblem? && !IsBlank(forwarder.options.baseUrl)
      ==> forwarded.Some?
    ensures StatusCode(response) in {200, 202, 400, 413, 422, 500}
  {
    forwarded := None;
    var p := Admit(endpoint, req, parseJson, parseXml);
    if p.Stop? {
      return p.response, None;
    }
    var read := p.read;
    if p.CheckSchema? {
      var verdict := validator.Validate(fs, endpoint, p.json, checker);
      if !verdict.isValid {
        return ValidationProblem(verdict.error.GetOr(ValidationFailedError)), None;
      }
    }
    response, forwarded := ForwardOrQueue(svc, queue, forwarder, endpoint, read, Message(endpoint, read, now),
                                          send, serializedSize, providerFails);
    RelayedAfterReading(req.headers);
  }

  /**
    The handler once the payload is admitted: queue it in Queue mode;
    otherwise forward it, and on failure force Queue mode, then queue it.
   */
  method ForwardOrQueue(svc: ModeService, queue: MessageQueue, forwarder: Forwarder,
                        endpoint: string, read: ReadResult, message: WebhookMessage,
                        send: Outcome, serializedSize: nat, providerFails: bool)
    returns (response: Response, forwarded: Option<OutboundRequest>)
    requires read.Read? && queue.Valid()
    modifies svc, queue
    ensures queue.Valid()
    ensures var forward := ForwardOutcome(forwarder.options, send);
      var enqueue := EnqueueOutcome(serializedSize, providerFails);
      && response == Dispatch(old(svc.mode), endpoint, forward, enqueue)
      && svc.State() == (if old(svc.mode) == Normal && !forward.success
                         then Step(svc.options, old(svc.State()), Forced(forward.error.GetOr(ForceQueueFallback)))
                         else old(svc.State()))
      && (if (old(svc.mode) == Queue || !forward.success) && enqueue == Enqueued
          then exists id :: queue.messages == old(queue.messages) + [Stored(id, message)]
          else queue.messages == old(queue.messages))
    ensures forwarded.Some? ==>
      && old(svc.mode) == Normal
      && forwarded.value == OutboundRequest("POST", TargetUrl(forwarder.options, endpoint, read.query),
                                            read.body, read.contentType, OutboundHeaders(read.headers))
    ensures old(svc.mode) == Normal && !IsBlank(forwarder.options.baseUrl) ==> forwarded.Some?
  {
    if svc.mode.Queue? {
      var enqueued := queue.Enqueue(message, serializedSize, providerFails);
      return EnqueueResponse(enqueued, endpoint, None), None;
    }
    var forward;
    forward, forwarded := forwarder.TryForward(endpoint, read.body, read.contentType, read.headers, read.query, send);
    if forward.success {
      return Ok("forwarded", "NORMAL"), forwarded;
    }
    svc.ForceQueue(forward.error.GetOr(ForceQueueFallback));
    var enqueued := queue.Enqueue(message, serializedSize, providerFails);
    response := EnqueueResponse(enqueued, endpoint, Some(forward.error.GetOr(QueuedReasonFallback)));
  }
}
