/**
  The mode controller: the two-valued mode, the last error and the three
  consecutive-observation counters, with the rules that move the proxy
  between live forwarding (Normal) and buffering (Queue).

  `ModeState` and `Step` are the value-level model of one locked operation;
  the class `ModeService` holds the same state in fields that its methods
  update in place, and each method is proved to perform exactly one `Step`.
 */
module Modes {

  import opened Wrappers
  import opened Config

  datatype ProxyMode = Normal | Queue

  /** Everything the service's lock guards, read as one value. */
  datatype ModeState = ModeState(
    mode: ProxyMode,
    lastError: Option<string>,
    healthFailures: nat,
    healthSuccesses: nat,
    queueEmptySuccesses: nat)

  /** The state of a new service: Normal, no error, all counters zero. */
  const Initial := ModeState(Normal, None, 0, 0, 0)

  /** One call of a state-changing operation of the service. */
  datatype Event =
    | Forced(reason: string)         // ForceQueue(reason)
    | HealthFailed(reason: string)   // RecordHealthFailure(reason)
    | HealthSucceeded                // RecordHealthSuccess()
    | DrainProgressed                // ResetQueueDrainCounter()
    | DrainedEmpty                   // MarkQueueDrainedIfStable()

  /** The state after one operation. */
  function Step(options: WorkerOptions, s: ModeState, e: Event): ModeState
  {
    match e
    case Forced(reason) => ModeState(Queue, Some(reason), 0, 0, 0)
    case HealthFailed(reason) =>
      var failures := s.healthFailures + 1;
      ModeState(if failures >= options.healthFailureThreshold then Queue else s.mode,
                Some(reason), failures, 0, 0)
    case HealthSucceeded => s.(healthSuccesses := s.healthSuccesses + 1, healthFailures := 0)
    case DrainProgressed => s.(queueEmptySuccesses := 0)
    case DrainedEmpty =>
      if s.mode != Queue then s
      else
        var drains := s.queueEmptySuccesses + 1;
        if s.healthSuccesses >= options.healthSuccessThreshold
           && drains >= options.healthSuccessThreshold
        then s.(mode := Normal, lastError := None, queueEmptySuccesses := drains)
        else s.(queueEmptySuccesses := drains)
  }

  /** The state after a sequence of operations, applied in order. */
  function Run(options: WorkerOptions, s: ModeState, es: seq<Event>): ModeState
    decreases |es|
  {
    if es == [] then s else Run(options, Step(options, s, es[0]), es[1..])
  }

  function Repeat(e: Event, n: nat): (es: seq<Event>)
    ensures |es| == n && forall i :: 0 <= i < n ==> es[i] == e
  {
    if n == 0 then [] else [e] + Repeat(e, n - 1)
  }

  /** How many of the events in `es` are `e`. */
  function Count(es: seq<Event>, e: Event): nat
  {
    if es == [] then 0 else (if es[0] == e then 1 else 0) + Count(es[1..], e)
  }

  // ---------------------------------------------------------------------------
  // Properties of single operations
  // ---------------------------------------------------------------------------

  /**
    Only MarkQueueDrainedIfStable leaves Queue mode, and only when both the
    success run and the empty-drain run (counting this drain) reach the
    success threshold; it then also clears the last error.
   */
  lemma OnlyStableDrainRestoresNormal(options: WorkerOptions, s: ModeState, e: Event)
    requires s.mode == Queue && Step(options, s, e).mode == Normal
    ensures e == DrainedEmpty
    ensures s.healthSuccesses >= options.healthSuccessThreshold
    ensures s.queueEmptySuccesses + 1 >= options.healthSuccessThreshold
    ensures Step(options, s, e).lastError == None
  {
  }

  /** MarkQueueDrainedIfStable in Normal mode leaves the whole state unchanged. */
  lemma DrainedEmptyIdleInNormal(options: WorkerOptions, s: ModeState, n: nat)
    requires s.mode == Normal
    ensures Run(options, s, Repeat(DrainedEmpty, n)) == s
  {
  }

  // ---------------------------------------------------------------------------
  // Properties of runs of operations
  // ---------------------------------------------------------------------------

  lemma {:induction false} RunAppend(options: WorkerOptions, s: ModeState, a: seq<Event>, b: seq<Event>)
    ensures Run(options, s, a + b) == Run(options, Run(options, s, a), b)
    decreases |a|
  {
    if a != [] {
      assert (a + b)[1..] == a[1..] + b;
      RunAppend(options, Step(options, s, a[0]), a[1..], b);
    } else {
      assert a + b == b;
    }
  }

  /** Without a MarkQueueDrainedIfStable call, Queue mode is never left. */
  lemma {:induction false} QueueHeldWithoutDrain(options: WorkerOptions, s: ModeState, es: seq<Event>)
    requires s.mode == Queue
    requires DrainedEmpty !in es
    ensures Run(options, s, es).mode == Queue
    decreases |es|
  {
    if es != [] {
      assert es[0] in es;
      QueueHeldWithoutDrain(options, Step(options, s, es[0]), es[1..]);
    }
  }

  /**
    `k` consecutive health failures: the failure count rises by `k`, the other
    counters are zero, the last error is the reason, and the mode is Queue
    exactly when the count has reached the failure threshold.
   */
  lemma {:induction false} FailureStreak(options: WorkerOptions, s: ModeState, reason: string, k: nat)
    requires k >= 1
    ensures var t := Run(options, s, Repeat(HealthFailed(reason), k));
      && t.healthFailures == s.healthFailures + k
      && t.healthSuccesses == 0 && t.queueEmptySuccesses == 0
      && t.lastError == Some(reason)
      && t.mode == (if s.healthFailures + k >= options.healthFailureThreshold then Queue else s.mode)
    decreases k
  {
    var s1 := Step(options, s, HealthFailed(reason));
    if k > 1 {
      FailureStreak(options, s1, reason, k - 1);
    }
  }

  /** A run with fewer health successes than the threshold needs never leaves Queue mode. */
  lemma {:induction false} RecoveryNeedsHealthSuccesses(options: WorkerOptions, s: ModeState, es: seq<Event>)
    requires s.mode == Queue
    requires s.healthSuccesses + Count(es, HealthSucceeded) < options.healthSuccessThreshold
    ensures Run(options, s, es).mode == Queue
    decreases |es|
  {
    if es != [] {
      RecoveryNeedsHealthSuccesses(options, Step(options, s, es[0]), es[1..]);
    }
  }

  /** A run with fewer empty drains than the threshold needs never leaves Queue mode. */
  lemma {:induction false} RecoveryNeedsEmptyDrains(options: WorkerOptions, s: ModeState, es: seq<Event>)
    requires s.mode == Queue
    requires s.queueEmptySuccesses + Count(es, DrainedEmpty) < options.healthSuccessThreshold
    ensures Run(options, s, es).mode == Queue
    decreases |es|
  {
    if es != [] {
      RecoveryNeedsEmptyDrains(options, Step(options, s, es[0]), es[1..]);
    }
  }

  lemma {:induction false} SuccessStreak(options: WorkerOptions, s: ModeState, k: nat)
    ensures var t := Run(options, s, Repeat(HealthSucceeded, k));
      t == s.(healthSuccesses := s.healthSuccesses + k, healthFailures := if k == 0 then s.healthFailures else 0)
    decreases k
  {
    if k > 0 {
      SuccessStreak(options, Step(options, s, HealthSucceeded), k - 1);
    }
  }

  lemma {:induction false} DrainStreak(options: WorkerOptions, s: ModeState, k: nat)
    requires s.mode == Queue && k >= 1
    requires s.healthSuccesses >= options.healthSuccessThreshold
    requires s.queueEmptySuccesses + k >= options.healthSuccessThreshold
    ensures Run(options, s, Repeat(DrainedEmpty, k)).mode == Normal
    ensures Run(options, s, Repeat(DrainedEmpty, k)).lastError == None
    decreases k
  {
    var s1 := Step(options, s, DrainedEmpty);
    if s1.mode == Normal {
      DrainedEmptyIdleInNormal(options, s1, k - 1);
    } else {
      DrainStreak(options, s1, k - 1);
    }
  }

  /**
    The recovery rule: from Queue mode, `k` health successes followed by `k`
    empty drains, with `k` at least the success threshold, return the proxy
    to Normal mode with no last error.
   */
  lemma StableRunRecovers(options: WorkerOptions, s: ModeState, k: nat)
    requires s.mode == Queue && k >= 1 && k >= options.healthSuccessThreshold
    ensures var t := Run(options, s, Repeat(HealthSucceeded, k) + Repeat(DrainedEmpty, k));
      t.mode == Normal && t.lastError == None
  {
    RunAppend(options, s, Repeat(HealthSucceeded, k), Repeat(DrainedEmpty, k));
    SuccessStreak(options, s, k);
    DrainStreak(options, Run(options, s, Repeat(HealthSucceeded, k)), k);
  }

  // ---------------------------------------------------------------------------
  // The service object
  // ---------------------------------------------------------------------------

  class ModeService {
    const options: WorkerOptions
    var mode: ProxyMode
    var lastError: Option<string>
    var healthFailures: nat
    var healthSuccesses: nat
    var queueEmptySuccesses: nat

    /** The fields as one value: what a caller holding the lock observes. */
    function State(): ModeState
      reads this
    {
      ModeState(mode, lastError, healthFailures, healthSuccesses, queueEmptySuccesses)
    }

    constructor (options: WorkerOptions)
      ensures this.options == options
      ensures mode == Normal && lastError == None
      ensures healthFailures == 0 && healthSuccesses == 0 && queueEmptySuccesses == 0
      ensures State() == Initial
    {
      this.options := options;
      mode := Normal;
      lastError := None;
      healthFailures, healthSuccesses, queueEmptySuccesses := 0, 0, 0;
    }

    /** Immediate switch to Queue mode after a failed delivery. */
    method ForceQueue(reason: string)
      modifies this
      ensures mode == Queue && lastError == Some(reason)
      ensures healthFailures == 0 && healthSuccesses == 0 && queueEmptySuccesses == 0
      ensures State() == Step(options, old(State()), Forced(reason))
    {
      mode := Queue;
      lastError := Some(reason);
      healthFailures := 0;
      healthSuccesses := 0;
      queueEmptySuccesses := 0;
    }

    /** A failed health probe: Queue mode once the failure run reaches the threshold. */
    method RecordHealthFailure(reason: string)
      modifies this
      ensures healthFailures == old(healthFailures) + 1
      ensures healthSuccesses == 0 && queueEmptySuccesses == 0 && lastError == Some(reason)
      ensures healthFailures >= options.healthFailureThreshold ==> mode == Queue
      ensures healthFailures < options.healthFailureThreshold ==> mode == old(mode)
      ensures State() == Step(options, old(State()), HealthFailed(reason))
    {
      healthFailures := healthFailures + 1;
      healthSuccesses := 0;
      queueEmptySuccesses := 0;
      lastError := Some(reason);
      if healthFailures >= options.healthFailureThreshold {
        mode := Queue;
      }
    }

    /** A successful health probe: extends the success run, ends the failure run. */
    method RecordHealthSuccess()
      modifies this
      ensures healthSuccesses == old(healthSuccesses) + 1 && healthFailures == 0
      ensures mode == old(mode) && lastError == old(lastError)
      ensures queueEmptySuccesses == old(queueEmptySuccesses)
      ensures State() == Step(options, old(State()), HealthSucceeded)
    {
      healthSuccesses := healthSuccesses + 1;
      healthFailures := 0;
    }

    /** A non-empty drain batch: the empty-drain run restarts. */
    method ResetQueueDrainCounter()
      modifies this
      ensures queueEmptySuccesses == 0
      ensures mode == old(mode) && lastError == old(lastError)
      ensures healthFailures == old(healthFailures) && healthSuccesses == old(healthSuccesses)
      ensures State() == Step(options, old(State()), DrainProgressed)
    {
      queueEmptySuccesses := 0;
    }

    /** An empty drain batch: in Queue mode, counts it and applies the recovery rule. */
    method MarkQueueDrainedIfStable()
      modifies this
      ensures old(mode) == Normal ==> State() == old(State())
      ensures old(mode) == Queue ==>
        && queueEmptySuccesses == old(queueEmptySuccesses) + 1
        && healthFailures == old(healthFailures) && healthSuccesses == old(healthSuccesses)
        && (if healthSuccesses >= options.healthSuccessThreshold
               && queueEmptySuccesses >= options.healthSuccessThreshold
            then mode == Normal && lastError == None
            else mode == Queue && lastError == old(lastError))
      ensures State() == Step(options, old(State()), DrainedEmpty)
    {
      if mode != Queue {
        return;
      }
      queueEmptySuccesses := queueEmptySuccesses + 1;
      if healthSuccesses >= options.healthSuccessThreshold
         && queueEmptySuccesses >= options.healthSuccessThreshold {
        mode := Normal;
        lastError := None;
      }
    }
  }

  // ---------------------------------------------------------------------------
  // The default thresholds
  // ---------------------------------------------------------------------------

  lemma {:induction false} CountAppend(a: seq<Event>, b: seq<Event>, e: Event)
    ensures Count(a + b, e) == Count(a, e) + Count(b, e)
    decreases |a|
  {
    if a == [] {
      assert a + b == b;
    } else {
      assert (a + b)[1..] == a[1..] + b;
      CountAppend(a[1..], b, e);
    }
  }

  lemma {:induction false} CountRepeat(x: Event, n: nat, e: Event)
    ensures Count(Repeat(x, n), e) == if x == e then n else 0
    decreases n
  {
    if n > 0 {
      assert Repeat(x, n)[1..] == Repeat(x, n - 1);
      CountRepeat(x, n - 1, e);
    }
  }

  /** With the default options, the third health failure in a row from a clean Normal state forces Queue mode. */
  lemma DefaultFailureThreshold(s: ModeState, reason: string)
    requires s.mode == Normal && s.healthFailures == 0
    ensures Run(DefaultWorkerOptions, s, Repeat(HealthFailed(reason), 2)).mode == Normal
    ensures Run(DefaultWorkerOptions, s, Repeat(HealthFailed(reason), 3)).mode == Queue
  {
    FailureStreak(DefaultWorkerOptions, s, reason, 2);
    FailureStreak(DefaultWorkerOptions, s, reason, 3);
  }

  /**
    With the default options, Queue mode entered afresh (counters zero) ends
    after three health successes and three empty drains, and not with two of
    either.
   */
  lemma DefaultRecoveryThreshold(s: ModeState)
    requires s.mode == Queue && s.healthSuccesses == 0 && s.queueEmptySuccesses == 0
    ensures Run(DefaultWorkerOptions, s, Repeat(HealthSucceeded, 3) + Repeat(DrainedEmpty, 3)).mode == Normal
    ensures Run(DefaultWorkerOptions, s, Repeat(HealthSucceeded, 2) + Repeat(DrainedEmpty, 3)).mode == Queue
    ensures Run(DefaultWorkerOptions, s, Repeat(HealthSucceeded, 3) + Repeat(DrainedEmpty, 2)).mode == Queue
  {
    StableRunRecovers(DefaultWorkerOptions, s, 3);
    var few := Repeat(HealthSucceeded, 2) + Repeat(DrainedEmpty, 3);
    CountAppend(Repeat(HealthSucceeded, 2), Repeat(DrainedEmpty, 3), HealthSucceeded);
    CountRepeat(HealthSucceeded, 2, HealthSucceeded);
    CountRepeat(DrainedEmpty, 3, HealthSucceeded);
    RecoveryNeedsHealthSuccesses(DefaultWorkerOptions, s, few);
    var short := Repeat(HealthSucceeded, 3) + Repeat(DrainedEmpty, 2);
    CountAppend(Repeat(HealthSucceeded, 3), Repeat(DrainedEmpty, 2), DrainedEmpty);
    CountRepeat(HealthSucceeded, 3, DrainedEmpty);
    CountRepeat(DrainedEmpty, 2, DrainedEmpty);
    RecoveryNeedsEmptyDrains(DefaultWorkerOptions, s, short);
  }
}
