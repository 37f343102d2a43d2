/**
  An in-memory stand-in for the durable queue (`QueueService`): messages in
  arrival order, each with the id the provider gives it. Receiving leases a
  prefix without removing it; deleting removes a message for good.
 */
module Queues {

  import opened Config

  /** A received message: the webhook and its queue id (`DequeuedMessage`). */
  datatype Stored = Stored(id: nat, message: WebhookMessage)

  /** Serialized messages above this many bytes are refused. */
  const MaxSerializedBytes: nat := 60000
  const SizeExceededError := "Payload exceeds Azure Queue message size limit (~64KB)"

  /** How an `EnqueueAsync` call ends: sent, refused for size, or a provider exception. */
  datatype EnqueueResult = Enqueued | SizeExceeded(message: string) | ProviderFailed

  /** What `EnqueueAsync` reports for a message of this serialized size. */
  function EnqueueOutcome(serializedSize: nat, providerFails: bool): EnqueueResult
  {
    if serializedSize > MaxSerializedBytes then SizeExceeded(SizeExceededError)
    else if providerFails then ProviderFailed
    else Enqueued
  }

  function Ids(q: seq<Stored>): set<nat>
  {
    set m | m in q :: m.id
  }

  predicate DistinctIds(q: seq<Stored>)
  {
    forall i, j :: 0 <= i < j < |q| ==> q[i].id != q[j].id
  }

  /** What a receive of at most `batchSize` messages returns: the oldest ones. */
  function Batch(q: seq<Stored>, batchSize: int): (b: seq<Stored>)
    ensures |b| <= |q| && b == q[..|b|]
    ensures |b| == if batchSize <= 0 then 0 else if batchSize < |q| then batchSize else |q|
  {
    if batchSize <= 0 then [] else if batchSize < |q| then q[..batchSize] else q
  }

  /** `q` without the messages whose id is in `ids`, order kept. */
  function Without(q: seq<Stored>, ids: set<nat>): (r: seq<Stored>)
    ensures forall m :: m in r <==> m in q && m.id !in ids
    ensures DistinctIds(q) ==> DistinctIds(r)
    ensures ids == {} ==> r == q
  {
    if q == [] then []
    else (if q[0].id in ids then [] else [q[0]]) + Without(q[1..], ids)
  }

  lemma {:induction false} WithoutTwice(q: seq<Stored>, a: set<nat>, b: set<nat>)
    ensures Without(Without(q, a), b) == Without(q, a + b)
    decreases |q|
  {
    if q != [] {
      WithoutTwice(q[1..], a, b);
      var rest := Without(q[1..], a);
      if q[0].id in a {
        assert Without(q, a) == rest;
      } else {
        var x := [q[0]] + rest;
        assert Without(q, a) == x;
        assert x[0] == q[0] && x[1..] == rest;
        assert Without(x, b) == (if q[0].id in b then [] else [q[0]]) + Without(rest, b);
      }
    }
  }

  class MessageQueue {
    var messages: seq<Stored>
    var nextId: nat

    ghost predicate Valid()
      reads this
    {
      DistinctIds(messages) && forall m :: m in messages ==> m.id < nextId
    }

    constructor ()
      ensures Valid() && messages == []
    {
      messages := [];
      nextId := 0;
    }

    /** `EnqueueAsync`, given the size of the message's serialized form. */
    method Enqueue(message: WebhookMessage, serializedSize: nat, providerFails: bool)
      returns (r: EnqueueResult)
      requires Valid()
      modifies this
      ensures Valid()
      ensures r == EnqueueOutcome(serializedSize, providerFails)
      ensures r == Enqueued ==> exists id :: messages == old(messages) + [Stored(id, message)]
      ensures r != Enqueued ==> messages == old(messages)
    {
      if serializedSize > MaxSerializedBytes {
        return SizeExceeded(SizeExceededError);
      }
      if providerFails {
        return ProviderFailed;
      }
      messages := messages + [Stored(nextId, message)];
      nextId := nextId + 1;
      r := Enqueued;
    }

    /** `ReceiveBatchAsync`: a provider error reads as an empty batch. */
    method ReceiveBatch(batchSize: int, providerFails: bool) returns (batch: seq<Stored>)
      ensures batch == if providerFails then [] else Batch(messages, batchSize)
    {
      if providerFails {
        return [];
      }
      batch := Batch(messages, batchSize);
    }

    /** `DeleteAsync`: the message with this id is gone for good. */
    method Delete(id: nat)
      requires Valid()
      modifies this
      ensures Valid()
      ensures messages == Without(old(messages), {id})
    {
      messages := Without(messages, {id});
    }
  }
}
