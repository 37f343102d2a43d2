/**
  One tick of the queue drain loop (`QueueWorkerService.ExecuteAsync`): in
  Queue mode, probe health, receive a batch, forward each message in order,
  delete the delivered ones and force Queue mode on each failure.
 */
module QueueWorker {

  import opened Wrappers
  import opened Text
  import opened Http
  import opened Config
  import opened Modes
  import opened Forwarding
  import opened HealthChecks
  import opened Queues

  const DrainHealthFailure := "Health-check failed while draining queue"
  const DrainForwardFailure := "Forwarding failed during queue drain"

  /** The forward of one queued message: a queued webhook carries no query. */
  function DrainResult(forwarding: ForwardingOptions, send: Stored -> Outcome, m: Stored): ForwardResult
  {
    ForwardOutcome(forwarding, send(m))
  }

  /** The POST sent for one queued message: none when forwarding is not configured. */
  function DrainRequest(forwarding: ForwardingOptions, m: Stored): Option<OutboundRequest>
  {
    if IsBlank(forwarding.baseUrl) then None else Some(DrainPost(forwarding, m))
  }

  /**
    A drained message is sent as a POST of its stored payload, content type
    and relayed headers to the endpoint URL, with no query string.
   */
  lemma DrainedWithoutQuery(forwarding: ForwardingOptions, m: Stored)
    ensures var r := DrainRequest(forwarding, m);
      && (r.None? <==> IsBlank(forwarding.baseUrl))
      && (r.Some? ==>
            && r.value.verb == "POST"
            && r.value.url == EndpointUrl(forwarding, m.message.endpoint)
            && r.value.content == m.message.payload
            && r.value.contentType == m.message.contentType
            && r.value.headers == OutboundHeaders(m.message.headers))
  {
    assert TargetUrl(forwarding, m.message.endpoint, []) == EndpointUrl(forwarding, m.message.endpoint) + "";
  }

  function DrainPost(forwarding: ForwardingOptions, m: Stored): OutboundRequest
  {
    OutboundRequest("POST", TargetUrl(forwarding, m.message.endpoint, []), m.message.payload,
                    m.message.contentType, OutboundHeaders(m.message.headers))
  }

  /** The requests sent while draining `batch`, in batch order. */
  function DrainRequests(forwarding: ForwardingOptions, batch: seq<Stored>): seq<OutboundRequest>
  {
    if batch == [] then []
    else
      var r := DrainRequest(forwarding, batch[|batch| - 1]);
      DrainRequests(forwarding, batch[..|batch| - 1]) + (if r.Some? then [r.value] else [])
  }

  /** Without forwarding configured, draining sends nothing. */
  lemma {:induction false} UnconfiguredDrainSendsNothing(forwarding: ForwardingOptions, batch: seq<Stored>)
    requires IsBlank(forwarding.baseUrl)
    ensures DrainRequests(forwarding, batch) == []
    decreases |batch|
  {
    if batch != [] {
      UnconfiguredDrainSendsNothing(forwarding, batch[..|batch| - 1]);
    }
  }

  /** With forwarding configured, draining sends one request per message of the batch. */
  lemma {:induction false} ConfiguredDrainSendsEach(forwarding: ForwardingOptions, batch: seq<Stored>)
    requires !IsBlank(forwarding.baseUrl)
    ensures |DrainRequests(forwarding, batch)| == |batch|
    decreases |batch|
  {
    if batch != [] {
      ConfiguredDrainSendsEach(forwarding, batch[..|batch| - 1]);
      assert DrainRequest(forwarding, batch[|batch| - 1]).Some?;
    }
  }

  /** With forwarding configured, the `j`-th request sent is the one built for the `j`-th message. */
  lemma {:induction false} DrainRequestsInOrder(forwarding: ForwardingOptions, batch: seq<Stored>, j: nat)
    requires !IsBlank(forwarding.baseUrl) && j < |batch|
    ensures |DrainRequests(forwarding, batch)| == |batch|
    ensures DrainRequest(forwarding, batch[j]) == Some(DrainRequests(forwarding, batch)[j])
    decreases |batch|
  {
    var init := batch[..|batch| - 1];
    ConfiguredDrainSendsEach(forwarding, init);
    ConfiguredDrainSendsEach(forwarding, batch);
    var front := DrainRequests(forwarding, init);
    var last := DrainRequest(forwarding, batch[|batch| - 1]);
    assert last.Some?;
    var rs := DrainRequests(forwarding, batch);
    assert rs == front + [last.value];
    if j < |init| {
      DrainRequestsInOrder(forwarding, init, j);
      assert init[j] == batch[j] && rs[j] == front[j];
    } else {
      assert j == |batch| - 1 && rs[j] == last.value;
    }
  }

  /** The messages of `batch` whose forward succeeded, in order. */
  function Delivered(forwarding: ForwardingOptions, send: Stored -> Outcome, batch: seq<Stored>): (d: seq<Stored>)
    ensures |d| <= |batch|
    ensures forall m :: m in d <==> m in batch && DrainResult(forwarding, send, m).success
  {
    if batch == [] then []
    else
      var last := batch[|batch| - 1];
      Delivered(forwarding, send, batch[..|batch| - 1])
      + (if DrainResult(forwarding, send, last).success then [last] else [])
  }

  /** The mode state after the forwards of `batch`: each failure forces Queue mode. */
  function AfterForwards(options: WorkerOptions, forwarding: ForwardingOptions, send: Stored -> Outcome,
                         s: ModeState, batch: seq<Stored>): ModeState
  {
    if batch == [] then s
    else
      var t := AfterForwards(options, forwarding, send, s, batch[..|batch| - 1]);
      var r := DrainResult(forwarding, send, batch[|batch| - 1]);
      if r.success then t else Step(options, t, Forced(r.error.GetOr(DrainForwardFailure)))
  }

  /** The position of the last message of `batch` whose forward failed, if any. */
  function LastFailure(forwarding: ForwardingOptions, send: Stored -> Outcome, batch: seq<Stored>): (r: Option<nat>)
    ensures r.Some? ==>
      && r.value < |batch| && !DrainResult(forwarding, send, batch[r.value]).success
      && forall k :: r.value < k < |batch| ==> DrainResult(forwarding, send, batch[k]).success
    ensures r.None? ==> forall k :: 0 <= k < |batch| ==> DrainResult(forwarding, send, batch[k]).success
  {
    if batch == [] then None
    else if !DrainResult(forwarding, send, batch[|batch| - 1]).success then Some(|batch| - 1)
    else
      var init := batch[..|batch| - 1];
      assert forall k :: 0 <= k < |init| ==> init[k] == batch[k];
      LastFailure(forwarding, send, init)
  }

  /**
    The forwards of a batch never leave Queue mode. If every forward
    succeeded the state is untouched; otherwise Queue mode was forced: the
    counters are zero and the last error is the reason of the last failed
    forward (its error, or the drain fallback when it has none).
   */
  lemma {:induction false} AfterForwardsEffect(options: WorkerOptions, forwarding: ForwardingOptions,
                                               send: Stored -> Outcome, s: ModeState, batch: seq<Stored>)
    requires s.mode == Queue
    ensures var t := AfterForwards(options, forwarding, send, s, batch);
      && t.mode == Queue
      && (|Delivered(forwarding, send, batch)| == |batch| ==> t == s)
      && (|Delivered(forwarding, send, batch)| < |batch| ==>
            && t.healthFailures == 0 && t.healthSuccesses == 0 && t.queueEmptySuccesses == 0
            && LastFailure(forwarding, send, batch).Some?
            && var i := LastFailure(forwarding, send, batch).value;
               t.lastError == Some(DrainResult(forwarding, send, batch[i]).error.GetOr(DrainForwardFailure)))
    decreases |batch|
  {
    if batch != [] {
      var init := batch[..|batch| - 1];
      AfterForwardsEffect(options, forwarding, send, s, init);
      if DrainResult(forwarding, send, batch[|batch| - 1]).success {
        assert Delivered(forwarding, send, batch) == Delivered(forwarding, send, init) + [batch[|batch| - 1]];
        var f := LastFailure(forwarding, send, init);
        if f.Some? {
          assert init[f.value] == batch[f.value];
        }
      }
    }
  }

  /**
    Deleting the delivered messages of a batch taken from the queue removes
    exactly those: every other message, in particular every one whose forward
    failed, stays.
   */
  lemma DeletesExactlyDelivered(q: seq<Stored>, batch: seq<Stored>, forwarding: ForwardingOptions,
                                send: Stored -> Outcome)
    requires DistinctIds(q) && |batch| <= |q| && batch == q[..|batch|]
    ensures forall m :: m in Without(q, Ids(Delivered(forwarding, send, batch))) <==>
      m in q && !(m in batch && DrainResult(forwarding, send, m).success)
  {
    var d := Delivered(forwarding, send, batch);
    forall m | m in q && m.id in Ids(d) ensures m in batch && DrainResult(forwarding, send, m).success {
      var n :| n in d && n.id == m.id;
      var i :| 0 <= i < |q| && q[i] == m;
      var j :| 0 <= j < |batch| && batch[j] == n;
      assert q[j] == n;
      assert q[i].id == q[j].id;
    }
  }

  /** Extending a batch prefix by one message: the delivered list grows by it iff its forward succeeded. */
  lemma DeliveredStep(forwarding: ForwardingOptions, send: Stored -> Outcome, batch: seq<Stored>, i: nat)
    requires i < |batch|
    ensures Delivered(forwarding, send, batch[..i + 1])
            == Delivered(forwarding, send, batch[..i])
               + (if DrainResult(forwarding, send, batch[i]).success then [batch[i]] else [])
  {
    assert batch[..i + 1][..i] == batch[..i];
  }

  /** Extending a batch prefix by one message: a failed forward forces Queue mode. */
  lemma AfterForwardsStep(options: WorkerOptions, forwarding: ForwardingOptions, send: Stored -> Outcome,
                          s: ModeState, batch: seq<Stored>, i: nat)
    requires i < |batch|
    ensures var r := DrainResult(forwarding, send, batch[i]);
      AfterForwards(options, forwarding, send, s, batch[..i + 1])
      == (if r.success then AfterForwards(options, forwarding, send, s, batch[..i])
          else Step(options, AfterForwards(options, forwarding, send, s, batch[..i]),
                    Forced(r.error.GetOr(DrainForwardFailure))))
  {
    assert batch[..i + 1][..i] == batch[..i];
  }

  lemma IdsAppend(d: seq<Stored>, m: Stored)
    ensures Ids(d + [m]) == Ids(d) + {m.id}
  {
    assert forall x :: x in d + [m] <==> x in d || x == m;
  }

  /** The queue left after the first `i + 1` forwards, from the one left after the first `i`. */
  lemma RemainingStep(q: seq<Stored>, forwarding: ForwardingOptions, send: Stored -> Outcome,
                      batch: seq<Stored>, i: nat)
    requires i < |batch|
    ensures var before := Without(q, Ids(Delivered(forwarding, send, batch[..i])));
      Without(q, Ids(Delivered(forwarding, send, batch[..i + 1])))
      == if DrainResult(forwarding, send, batch[i]).success then Without(before, {batch[i].id}) else before
  {
    var d := Delivered(forwarding, send, batch[..i]);
    DeliveredStep(forwarding, send, batch, i);
    if DrainResult(forwarding, send, batch[i]).success {
      assert Delivered(forwarding, send, batch[..i + 1]) == d + [batch[i]];
      IdsAppend(d, batch[i]);
      WithoutTwice(q, Ids(d), {batch[i].id});
    } else {
      assert Delivered(forwarding, send, batch[..i + 1]) == d;
    }
  }

  /**
    The drain tick. `probe` is the health probe's outcome, `receiveFails`
    a provider error on receive, and `send` the downstream's answer to the
    forward of each message.
   */
  method DrainTick(svc: ModeService, queue: MessageQueue, forwarder: Forwarder,
                   probe: Outcome, receiveFails: bool, send: Stored -> Outcome)
    returns (sent: seq<OutboundRequest>)
    requires queue.Valid()
    modifies svc, queue
    ensures queue.Valid()
    ensures old(svc.mode) == Normal ==>
      svc.State() == old(svc.State()) && queue.messages == old(queue.messages)
    ensures old(svc.mode) == Queue && !IsHealthy(forwarder.options, probe) ==>
      && svc.State() == Step(svc.options, old(svc.State()), HealthFailed(DrainHealthFailure))
      && queue.messages == old(queue.messages)
    ensures old(svc.mode) == Queue && IsHealthy(forwarder.options, probe) ==>
      var healthy := Step(svc.options, old(svc.State()), HealthSucceeded);
      var batch := if receiveFails then [] else Batch(old(queue.messages), svc.options.batchSize);
      && (batch == [] ==>
            svc.State() == Step(svc.options, healthy, DrainedEmpty)
            && queue.messages == old(queue.messages))
      && (batch != [] ==>
            && svc.State() == AfterForwards(svc.options, forwarder.options, send,
                                            Step(svc.options, healthy, DrainProgressed), batch)
            && svc.mode == Queue
            && queue.messages == Without(old(queue.messages), Ids(Delivered(forwarder.options, send, batch))))
      && sent == DrainRequests(forwarder.options, batch)
    ensures old(svc.mode) == Queue && !IsHealthy(forwarder.options, probe) ==> sent == []
    ensures old(svc.mode) == Normal ==> sent == []
  {
    sent := [];
    if svc.mode == Normal {
      return;
    }
    var healthy := IsHealthy(forwarder.options, probe);
    if !healthy {
      svc.RecordHealthFailure(DrainHealthFailure);
      return;
    }
    svc.RecordHealthSuccess();
    var messages := queue.ReceiveBatch(svc.options.batchSize, receiveFails);
    if |messages| == 0 {
      svc.MarkQueueDrainedIfStable();
      return;
    }
    svc.ResetQueueDrainCounter();
    ghost var start := svc.State();
    sent := ForwardBatch(svc, queue, forwarder, send, messages);
    AfterForwardsEffect(svc.options, forwarder.options, send, start, messages);
  }

  lemma DrainRequestsStep(forwarding: ForwardingOptions, batch: seq<Stored>, i: nat)
    requires i < |batch|
    ensures var r := DrainRequest(forwarding, batch[i]);
      DrainRequests(forwarding, batch[..i + 1])
      == DrainRequests(forwarding, batch[..i]) + (if r.Some? then [r.value] else [])
  {
    assert batch[..i + 1][..i] == batch[..i];
  }

  /** The `foreach` over a non-empty batch: delete each delivered message, force Queue mode on each failure. */
  method ForwardBatch(svc: ModeService, queue: MessageQueue, forwarder: Forwarder,
                      send: Stored -> Outcome, batch: seq<Stored>)
    returns (sent: seq<OutboundRequest>)
    requires queue.Valid()
    modifies svc, queue
    ensures queue.Valid()
    ensures svc.State() == AfterForwards(svc.options, forwarder.options, send, old(svc.State()), batch)
    ensures queue.messages == Without(old(queue.messages), Ids(Delivered(forwarder.options, send, batch)))
    ensures sent == DrainRequests(forwarder.options, batch)
  {
    ghost var start := svc.State();
    ghost var q0 := queue.messages;
    assert batch[..0] == [];
    sent := [];
    var i := 0;
    while i < |batch|
      invariant 0 <= i <= |batch|
      invariant queue.Valid()
      invariant queue.messages == Without(q0, Ids(Delivered(forwarder.options, send, batch[..i])))
      invariant svc.State() == AfterForwards(svc.options, forwarder.options, send, start, batch[..i])
      invariant sent == DrainRequests(forwarder.options, batch[..i])
    {
      var request := ForwardOne(svc, queue, forwarder, send, batch[i]);
      if request.Some? {
        sent := sent + [request.value];
      }
      AfterForwardsStep(svc.options, forwarder.options, send, start, batch, i);
      RemainingStep(q0, forwarder.options, send, batch, i);
      DrainRequestsStep(forwarder.options, batch, i);
      i := i + 1;
    }
    assert batch[..|batch|] == batch;
  }

  /** One pass of the `foreach`: forward the message, then delete it or force Queue mode. */
  method ForwardOne(svc: ModeService, queue: MessageQueue, forwarder: Forwarder,
                    send: Stored -> Outcome, m: Stored)
    returns (request: Option<OutboundRequest>)
    requires queue.Valid()
    modifies svc, queue
    ensures queue.Valid()
    ensures var r := DrainResult(forwarder.options, send, m);
      if r.success then
        queue.messages == Without(old(queue.messages), {m.id}) && svc.State() == old(svc.State())
      else
        queue.messages == old(queue.messages)
        && svc.State() == Step(svc.options, old(svc.State()), Forced(r.error.GetOr(DrainForwardFailure)))
    ensures request == DrainRequest(forwarder.options, m)
  {
    var result;
    result, request := forwarder.TryForward(m.message.endpoint, m.message.payload,
                                          m.message.contentType, m.message.headers, [], send(m));
    if result.success {
      queue.Delete(m.id);
    } else {
      svc.ForceQueue(result.error.GetOr(DrainForwardFailure));
    }
  }
}
