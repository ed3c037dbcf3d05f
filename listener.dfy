/**
 * `SqsMessageListener`: the container that runs a number of consumers polling
 * one queue. Its state is the consumer registry (`consumerMap`, consumer id to
 * the consumer's future), the `isRunning` flag, the configured consumer count,
 * and the two executors (one running the consumer loops, one running the
 * message handlers).
 */
module Listener {
  import opened JavaLang
  import opened SqsTypes
  import opened Queue
  import opened Batch

  const CONSUMER_LOOP_THREAD_PREFIX: string := "sqs-consumer-loop"
  const MESSAGE_PROCESSOR_THREAD_PREFIX: string := "sqs-listener"
  const PROCESSOR_KEEP_ALIVE_SECONDS: int := 120
  const AWAIT_TERMINATION_SECONDS: int := 20

  /** A consumer id, `UUID.randomUUID().toString()`; the generator is a counter, so ids never repeat. */
  datatype ConsumerId = ConsumerId(serial: nat)

  /** The state of a consumer's `Future`: `isDone()` holds once it is cancelled or finished. */
  datatype FutureState = Running | Cancelled | Finished

  /** A registered consumer: its future and the queue it was scheduled for. */
  datatype Consumer = Consumer(future: FutureState, queue: Option<SqsQueue>) {
    predicate IsDone() { !future.Running? }

    /** `future.cancel(false)`: a running future becomes cancelled; a done one stays as it is. */
    function Cancel(): (c: Consumer)
      ensures c.IsDone() && c.queue == queue
      ensures IsDone() ==> c == this
    {
      if future.Running? then this.(future := Cancelled) else this
    }
  }

  /** Every entry of `before` cancelled. */
  function CancelAll(before: map<ConsumerId, Consumer>): (after: map<ConsumerId, Consumer>)
    ensures after.Keys == before.Keys
    ensures forall id :: id in after ==> after[id] == before[id].Cancel()
  {
    map id | id in before :: before[id].Cancel()
  }

  function Max0(n: int): nat { if n < 0 then 0 else n }

  function Min(a: int, b: int): int { if a < b then a else b }

  /**
   * `after` is `before` with `count` new running consumers for `queue`, whose ids
   * are the next `count` ids of the generator; the old entries are unchanged.
   */
  ghost predicate AddedFresh(before: map<ConsumerId, Consumer>, after: map<ConsumerId, Consumer>,
                             from: nat, count: nat, queue: Option<SqsQueue>)
  {
    && (forall id :: id in after <==> id in before || from <= id.serial < from + count)
    && (forall id :: id in before ==> after[id] == before[id])
    && (forall id :: id in after && id !in before ==> after[id] == Consumer(Running, queue))
    && |after| == |before| + count
  }

  /**
   * How many consumers `adjustConsumerCount` cancels when it scales `size`
   * registered consumers down to `target`: `size - target` in `int`
   * arithmetic, bounded by the number of entries the enumeration has.
   */
  function CancelCount(size: nat, target: int): (c: nat)
    ensures c <= size
    ensures size > target && size - target <= MAX_INT ==> c == Min(size - target, size)
    ensures MIN_INT <= size - target <= 0 ==> c == 0
    ensures MAX_INT < size - target <= TWO_32 ==> c == 0
  {
    var delta := Int32(size - target);
    if delta <= 0 then 0 else Min(delta, size)
  }

  /** `consumerCount * queue.getMaxBatchSize() + 1` in `int` arithmetic; null unboxes to NullPointerException. */
  function PoolSize(queue: Option<SqsQueue>, consumerCount: int32): (r: Result<int32>)
    ensures r.Failure? <==> queue.None? || queue.value.maxBatchSize.None?
    ensures r.Failure? ==> r.error == NullPointer
    ensures r.Success? ==> (r.value - (consumerCount * queue.value.maxBatchSize.value + 1)) % TWO_32 == 0
  {
    if queue.None? || queue.value.maxBatchSize.None? then Failure(NullPointer)
    else Success(Int32(consumerCount * queue.value.maxBatchSize.value + 1))
  }

  /**
   * The task executor after `initialize`: an executor already set is kept;
   * otherwise a pool of `consumerCount * maxBatchSize + 1` threads named
   * "sqs-listener-thread-<n>", whose idle threads time out after 120 seconds.
   * A pool size that is not positive is an IllegalArgumentException.
   */
  function InitialTaskExecutor(current: Option<Executor>, queue: Option<SqsQueue>, consumerCount: int32)
    : (r: (Option<Executor>, Outcome))
    ensures current.Some? ==> r == (current, Done)
    ensures current.None? && r.1 == Done ==>
              && PoolSize(queue, consumerCount).Success?
              && PoolSize(queue, consumerCount).value > 0
              && r.0 == Some(Executor(ThreadPool(PoolSize(queue, consumerCount).value, 120, "sqs-listener", true), false))
    ensures r.1.Threw? ==> r.0 == current
  {
    if current.Some? then (current, Done)
    else
      match PoolSize(queue, consumerCount)
      case Failure(e) => (None, Threw(e))
      case Success(size) =>
        if size <= 0 then (None, Threw(IllegalArgument("")))
        else (Some(Executor(ThreadPool(size, PROCESSOR_KEEP_ALIVE_SECONDS, MESSAGE_PROCESSOR_THREAD_PREFIX, true), false)), Done)
  }

  /** Without overflow the default pool has one thread per consumer and batch slot, plus one. */
  lemma PoolSizeWithoutOverflow(queue: SqsQueue, consumerCount: int32)
    requires queue.maxBatchSize.Some? && consumerCount > 0 && queue.maxBatchSize.value > 0
    requires consumerCount * queue.maxBatchSize.value + 1 <= MAX_INT
    ensures PoolSize(Some(queue), consumerCount) == Success(consumerCount * queue.maxBatchSize.value + 1)
  {
  }

  /** 65536 consumers with batches of 32768 overflow the pool size, and `initialize` fails. */
  lemma PoolSizeOverflow(queue: SqsQueue)
    requires queue.maxBatchSize == Some(32768)
    ensures PoolSize(Some(queue), 65536) == Success(MIN_INT + 1)
    ensures InitialTaskExecutor(None, Some(queue), 65536) == (None, Threw(IllegalArgument("")))
  {
  }

  /** The configuration part of a listener's state. */
  datatype Config = Config(
    queue: Option<SqsQueue>,
    taskExecutor: Option<Executor>,
    consumerLoopExecutor: Option<Executor>,
    consumerCount: int32,
    isRunning: bool)

  class SqsMessageListener {
    const sqsClient: Option<ClientRef>
    var queue: Option<SqsQueue>
    var taskExecutor: Option<Executor>
    var consumerLoopExecutor: Option<Executor>
    var consumerMap: map<ConsumerId, Consumer>
    var consumerCount: int32
    var isRunning: bool
    /** The state of the id generator: the serial of the next id. */
    var nextSerial: nat

    /** Every registered id was generated before. */
    ghost predicate Valid()
      reads this
    {
      forall id :: id in consumerMap ==> id.serial < nextSerial
    }

    ghost function State(): Config
      reads this
    {
      Config(queue, taskExecutor, consumerLoopExecutor, consumerCount, isRunning)
    }

    /** `isActive`: the id is registered and its future is not done. */
    predicate IsActive(id: ConsumerId)
      reads this
      ensures IsActive(id) ==> id in consumerMap && consumerMap[id].future == Running
      ensures id in consumerMap && consumerMap[id].future == Running ==> IsActive(id)
    {
      id in consumerMap && !consumerMap[id].IsDone()
    }

    /** The ids `isActive` holds for. */
    function ActiveIds(): (ids: set<ConsumerId>)
      reads this
      ensures forall id :: id in ids <==> IsActive(id)
    {
      set id | id in consumerMap && !consumerMap[id].IsDone()
    }

    /** `new SqsMessageListener(sqsClient)`. */
    constructor (client: Option<ClientRef>)
      ensures Valid() && sqsClient == client && consumerMap == map[]
      ensures State() == Config(None, None, None, 1, false)
    {
      sqsClient := client;
      queue, taskExecutor, consumerLoopExecutor := None, None, None;
      consumerMap := map[];
      consumerCount, isRunning := 1, false;
      nextSerial := 0;
    }

    /**
     * The three-argument constructor `SqsMessageListenerBuilder.build` calls:
     * the one-argument constructor followed by `setTaskExecutor` and `setQueue`.
     */
    constructor WithQueue(client: Option<ClientRef>, executor: Option<ExecutorRef>, sqsQueue: SqsQueue)
      ensures Valid() && sqsClient == client && consumerMap == map[]
      ensures State() == Config(Some(sqsQueue), SuppliedExecutor(executor), None, 1, false)
    {
      sqsClient := client;
      queue, taskExecutor, consumerLoopExecutor := Some(sqsQueue), SuppliedExecutor(executor), None;
      consumerMap := map[];
      consumerCount, isRunning := 1, false;
      nextSerial := 0;
    }

    static function SuppliedExecutor(executor: Option<ExecutorRef>): Option<Executor> {
      match executor
      case None => None
      case Some(e) => Some(Executor(Supplied(e), false))
    }

    /** `setTaskExecutor`. */
    method SetTaskExecutor(executor: Option<ExecutorRef>)
      modifies this
      ensures taskExecutor == SuppliedExecutor(executor)
      ensures queue == old(queue) && consumerLoopExecutor == old(consumerLoopExecutor)
      ensures consumerCount == old(consumerCount) && isRunning == old(isRunning)
      ensures consumerMap == old(consumerMap) && nextSerial == old(nextSerial)
    {
      taskExecutor := SuppliedExecutor(executor);
    }

    /** `setQueue`: consumers already scheduled keep the queue they were given. */
    method SetQueue(q: Option<SqsQueue>)
      modifies this
      ensures queue == q
      ensures taskExecutor == old(taskExecutor) && consumerLoopExecutor == old(consumerLoopExecutor)
      ensures consumerCount == old(consumerCount) && isRunning == old(isRunning)
      ensures consumerMap == old(consumerMap) && nextSerial == old(nextSerial)
    {
      queue := q;
    }

    /**
     * `initialize`: a fixed pool of `consumerCount` consumer-loop threads
     * (IllegalArgumentException when the count is not positive), then the task
     * executor, created only when none was set.
     */
    method Initialize() returns (o: Outcome)
      requires Valid()
      modifies this
      ensures Valid() && consumerMap == old(consumerMap) && nextSerial == old(nextSerial)
      ensures queue == old(queue) && consumerCount == old(consumerCount) && isRunning == old(isRunning)
      ensures old(consumerCount) <= 0 ==>
                && o == Threw(IllegalArgument(""))
                && consumerLoopExecutor == old(consumerLoopExecutor) && taskExecutor == old(taskExecutor)
      ensures old(consumerCount) > 0 ==>
                && consumerLoopExecutor == Some(Executor(FixedThreadPool(consumerCount, CONSUMER_LOOP_THREAD_PREFIX), false))
                && (taskExecutor, o) == InitialTaskExecutor(old(taskExecutor), queue, consumerCount)
    {
      if consumerCount <= 0 {
        return Threw(IllegalArgument(""));
      }
      consumerLoopExecutor := Some(Executor(FixedThreadPool(consumerCount, CONSUMER_LOOP_THREAD_PREFIX), false));
      var (executor, outcome) := InitialTaskExecutor(taskExecutor, queue, consumerCount);
      taskExecutor, o := executor, outcome;
    }

    /**
     * `computeIfAbsent(UUID.randomUUID().toString(), id -> consumerLoopExecutor.submit(...))`:
     * the new id is never registered yet, so the consumer is added, running the
     * current queue, unless the submission throws.
     */
    method AddConsumer() returns (o: Outcome)
      requires Valid()
      modifies this
      ensures Valid() && State() == old(State())
      ensures nextSerial == old(nextSerial) + 1
      ensures o == SubmitCheck(consumerLoopExecutor)
      ensures o.Threw? ==> consumerMap == old(consumerMap)
      ensures o == Done ==> AddedFresh(old(consumerMap), consumerMap, old(nextSerial), 1, queue)
    {
      var id := ConsumerId(nextSerial);
      nextSerial := nextSerial + 1;
      assert id !in consumerMap;
      o := SubmitCheck(consumerLoopExecutor);
      if o == Done {
        consumerMap := consumerMap[id := Consumer(Running, queue)];
      }
    }

    /**
     * `scheduleConsumers`: `consumerCount` new consumers (none when the count is
     * not positive); a submission that throws leaves the registry unchanged.
     */
    method ScheduleConsumers() returns (o: Outcome)
      requires Valid()
      modifies this
      ensures Valid() && State() == old(State())
      ensures nextSerial >= old(nextSerial)
      ensures o == (if consumerCount > 0 then SubmitCheck(consumerLoopExecutor) else Done)
      ensures o.Threw? ==> consumerMap == old(consumerMap)
      ensures o == Done ==> AddedFresh(old(consumerMap), consumerMap, old(nextSerial), Max0(consumerCount), queue)
    {
      var i := 0;
      o := Done;
      while i < consumerCount
        invariant 0 <= i <= Max0(consumerCount)
        invariant Valid() && State() == old(State())
        invariant nextSerial == old(nextSerial) + i
        invariant AddedFresh(old(consumerMap), consumerMap, old(nextSerial), i, queue)
        invariant i > 0 ==> SubmitCheck(consumerLoopExecutor) == Done
        invariant o == Done
      {
        ghost var before := consumerMap;
        o := AddConsumer();
        if o.Threw? {
          assert i == 0;
          assert consumerMap == old(consumerMap);
          return;
        }
        i := i + 1;
      }
    }

    /**
     * `start`: a no-op while running; otherwise it schedules the consumers and
     * sets `isRunning`, unless scheduling throws.
     */
    method Start() returns (o: Outcome)
      requires Valid()
      modifies this
      ensures Valid()
      ensures old(isRunning) ==> o == Done && consumerMap == old(consumerMap) && State() == old(State())
      ensures !old(isRunning) ==>
                && o == (if consumerCount > 0 then SubmitCheck(consumerLoopExecutor) else Done)
                && State() == old(State()).(isRunning := o == Done)
                && (o.Threw? ==> consumerMap == old(consumerMap))
                && (o == Done ==> AddedFresh(old(consumerMap), consumerMap, old(nextSerial), Max0(consumerCount), queue))
    {
      if isRunning {
        return Done;
      }
      o := ScheduleConsumers();
      if o.Threw? {
        return;
      }
      isRunning := true;
    }

    /** `isRunning`: the flag `start` sets, which neither `destroy` nor `terminate` clears. */
    function IsRunning(): (b: bool)
      reads this
      ensures b <==> isRunning
    {
      isRunning
    }

    /**
     * `adjustConsumerCount`: while fewer consumers are registered than `target`,
     * one more is added; then, when more are registered than `target`, `size -
     * target` of them (in `int` arithmetic, at most all of them), chosen in the
     * registry's enumeration order, are cancelled and stay registered.
     */
    method AdjustConsumerCount(target: int32) returns (o: Outcome, cancelled: set<ConsumerId>)
      requires Valid()
      modifies this
      ensures Valid() && State() == old(State())
      ensures |old(consumerMap)| < target ==>
                && cancelled == {}
                && o == SubmitCheck(consumerLoopExecutor)
                && (o.Threw? ==> consumerMap == old(consumerMap))
                && (o == Done ==>
                      AddedFresh(old(consumerMap), consumerMap, old(nextSerial), target - |old(consumerMap)|, queue))
      ensures |old(consumerMap)| >= target ==>
                && o == Done
                && consumerMap.Keys == old(consumerMap).Keys
                && cancelled <= consumerMap.Keys
                && |cancelled| == CancelCount(|old(consumerMap)|, target)
                && (forall id :: id in consumerMap ==>
                      consumerMap[id] == if id in cancelled then old(consumerMap)[id].Cancel() else old(consumerMap)[id])
    {
      o, cancelled := Done, {};
      var firstSerial := nextSerial;
      // increase
      while |consumerMap| < target
        invariant Valid() && State() == old(State())
        invariant nextSerial >= old(nextSerial)
        invariant AddedFresh(old(consumerMap), consumerMap, old(nextSerial), nextSerial - old(nextSerial), queue)
        invariant nextSerial > old(nextSerial) ==> SubmitCheck(consumerLoopExecutor) == Done && |consumerMap| <= target
        invariant o == Done
        decreases target - |consumerMap|
      {
        o := AddConsumer();
        if o.Threw? {
          assert consumerMap == old(consumerMap);
          return;
        }
      }
      if nextSerial > firstSerial {
        return;
      }
      // decrease
      ghost var before := consumerMap;
      assert before == old(consumerMap);
      if |consumerMap| > target {
        var delta := Int32(|consumerMap| - target);
        var i := 0;
        while i < delta
          invariant Valid() && State() == old(State())
          invariant consumerMap.Keys == before.Keys
          invariant 0 <= i <= Max0(delta)
          invariant cancelled <= before.Keys
          invariant |cancelled| == Min(i, |before|)
          invariant forall id :: id in consumerMap ==>
                      consumerMap[id] == if id in cancelled then before[id].Cancel() else before[id]
        {
          if |cancelled| < |consumerMap| {
            var id := NotYetEnumerated(cancelled);
            consumerMap := consumerMap[id := consumerMap[id].Cancel()];
            cancelled := cancelled + {id};
          }
          i := i + 1;
        }
      }
    }

    /** `consumers.nextElement()`: a registered consumer the enumeration has not visited yet. */
    method NotYetEnumerated(visited: set<ConsumerId>) returns (id: ConsumerId)
      requires visited <= consumerMap.Keys && |visited| < |consumerMap|
      ensures id in consumerMap && id !in visited
    {
      SmallerSubsetMisses(visited, consumerMap.Keys);
      id :| id in consumerMap && id !in visited;
    }

    /**
     * `setConsumerCount`: while running the registry is adjusted first, and an
     * exception from the adjustment leaves the count unchanged; while stopped
     * only the count is stored.
     */
    method SetConsumerCount(n: int32) returns (o: Outcome, cancelled: set<ConsumerId>)
      requires Valid()
      modifies this
      ensures Valid()
      ensures !old(isRunning) ==>
                && o == Done && cancelled == {} && consumerMap == old(consumerMap)
                && State() == old(State()).(consumerCount := n)
      ensures old(isRunning) ==>
                && State() == old(State()).(consumerCount := if o == Done then n else old(consumerCount))
                && (|old(consumerMap)| < n ==>
                      && cancelled == {}
                      && o == SubmitCheck(consumerLoopExecutor)
                      && (o.Threw? ==> consumerMap == old(consumerMap))
                      && (o == Done ==> AddedFresh(old(consumerMap), consumerMap, old(nextSerial), n - |old(consumerMap)|, queue)))
                && (|old(consumerMap)| >= n ==>
                      && o == Done
                      && consumerMap.Keys == old(consumerMap).Keys
                      && cancelled <= consumerMap.Keys
                      && |cancelled| == CancelCount(|old(consumerMap)|, n)
                      && (forall id :: id in consumerMap ==>
                            consumerMap[id] == if id in cancelled then old(consumerMap)[id].Cancel() else old(consumerMap)[id]))
    {
      o, cancelled := Done, {};
      if isRunning {
        o, cancelled := AdjustConsumerCount(n);
        if o.Threw? {
          return;
        }
      }
      consumerCount := n;
    }

    /**
     * `terminate`: every consumer is cancelled (the cancelled futures are
     * returned) and the registry is emptied; then both executors are shut down,
     * a null one throwing NullPointerException. `warned` says whether one of them
     * failed to terminate within the 20-second wait. `isRunning` is left as it is.
     */
    method Terminate(taskExecutorTerminated: bool, loopExecutorTerminated: bool)
      returns (o: Outcome, stopped: map<ConsumerId, Consumer>, warned: bool)
      requires Valid()
      modifies this
      ensures Valid()
      ensures stopped == CancelAll(old(consumerMap)) && consumerMap == map[]
      ensures queue == old(queue) && consumerCount == old(consumerCount) && isRunning == old(isRunning)
      ensures old(taskExecutor).None? ==>
                o == Threw(NullPointer) && taskExecutor == None && consumerLoopExecutor == old(consumerLoopExecutor) && !warned
      ensures old(taskExecutor).Some? ==> taskExecutor == Some(old(taskExecutor).value.(shutDown := true))
      ensures old(taskExecutor).Some? && old(consumerLoopExecutor).None? ==>
                o == Threw(NullPointer) && consumerLoopExecutor == None && !warned
      ensures old(taskExecutor).Some? && old(consumerLoopExecutor).Some? ==>
                && o == Done
                && consumerLoopExecutor == Some(old(consumerLoopExecutor).value.(shutDown := true))
                && warned == (!taskExecutorTerminated || !loopExecutorTerminated)
    {
      stopped := CancelAll(consumerMap);
      consumerMap := map[];
      warned := false;
      if taskExecutor.None? {
        return Threw(NullPointer), stopped, warned;
      }
      taskExecutor := Some(taskExecutor.value.(shutDown := true));
      if consumerLoopExecutor.None? {
        return Threw(NullPointer), stopped, warned;
      }
      consumerLoopExecutor := Some(consumerLoopExecutor.value.(shutDown := true));
      warned := !taskExecutorTerminated || !loopExecutorTerminated;
      o := Done;
    }

    /** `destroy`: `terminate`, between two log lines. */
    method Destroy(taskExecutorTerminated: bool, loopExecutorTerminated: bool)
      returns (o: Outcome, stopped: map<ConsumerId, Consumer>, warned: bool)
      requires Valid()
      modifies this
      ensures Valid()
      ensures stopped == CancelAll(old(consumerMap)) && consumerMap == map[]
      ensures queue == old(queue) && consumerCount == old(consumerCount) && isRunning == old(isRunning)
      ensures o == Done <==> old(taskExecutor).Some? && old(consumerLoopExecutor).Some?
      ensures taskExecutor.Some? == old(taskExecutor).Some? && consumerLoopExecutor.Some? == old(consumerLoopExecutor).Some?
      ensures o == Done ==>
                && taskExecutor == Some(old(taskExecutor).value.(shutDown := true))
                && consumerLoopExecutor == Some(old(consumerLoopExecutor).value.(shutDown := true))
                && warned == (!taskExecutorTerminated || !loopExecutorTerminated)
      ensures old(taskExecutor).Some? ==> taskExecutor == Some(old(taskExecutor).value.(shutDown := true))
      ensures old(taskExecutor).None? ==> consumerLoopExecutor == old(consumerLoopExecutor)
    {
      o, stopped, warned := Terminate(taskExecutorTerminated, loopExecutorTerminated);
    }

    /**
     * The loop of `QueueConsumer.run` for consumer `id`, one turn: nothing when the
     * consumer is not active (the loop has ended); otherwise one turn over the
     * queue it was scheduled for, and an exception escaping the turn finishes
     * its future.
     */
    method ConsumerStep(id: ConsumerId, receive: ReceiveOutcome, outcomes: seq<HandlerOutcome>, deleteOutcome: CallOutcome)
      returns (ran: bool, it: Iteration, o: Outcome)
      requires Valid() && OutcomesFit(receive, outcomes)
      modifies this
      ensures Valid() && State() == old(State()) && nextSerial == old(nextSerial)
      ensures ran == old(IsActive(id))
      ensures !ran ==> it == NothingDone && o == Done && consumerMap == old(consumerMap)
      ensures ran && old(consumerMap)[id].queue.None? ==>
                it == NothingDone && o == Threw(NullPointer)
      ensures ran && old(consumerMap)[id].queue.Some? ==>
                (it, o) == Iterate(sqsClient, taskExecutor, old(consumerMap)[id].queue.value, receive, outcomes, deleteOutcome)
      ensures ran ==> consumerMap == old(consumerMap)[id := old(consumerMap)[id].(future := if o.Threw? then Finished else Running)]
    {
      if !IsActive(id) {
        return false, NothingDone, Done;
      }
      ran := true;
      var consumer := consumerMap[id];
      if consumer.queue.None? {
        it, o := NothingDone, Threw(NullPointer);
      } else {
        it, o := RunIteration(sqsClient, taskExecutor, consumer.queue.value, receive, outcomes, deleteOutcome);
      }
      if o.Threw? {
        consumerMap := consumerMap[id := consumer.(future := Finished)];
      } else {
        assert consumer.future == Running;
        assert consumerMap == consumerMap[id := consumer];
      }
    }
  }

  /** A proper subset of a finite set leaves some element out. */
  lemma {:induction false} SmallerSubsetMisses<T>(a: set<T>, b: set<T>)
    requires a <= b && |a| < |b|
    ensures exists x :: x in b && x !in a
  {
    CardinalityOfDifference(b, a);
    var x :| x in b - a;
  }

  /** Removing a subset removes exactly its elements from the count. */
  lemma {:induction false} CardinalityOfDifference<T>(a: set<T>, b: set<T>)
    requires b <= a
    ensures |a - b| == |a| - |b|
  {
    assert a == (a - b) + b;
    assert (a - b) * b == {};
  }

  /**
   * Scaling a running listener from 2 consumers to 1 and back to 2 leaves only
   * one active consumer: the cancelled one stays registered and still counts
   * towards the registry size when scaling up.
   */
  method ScaleDownThenUpScenario(client: ClientRef, q: SqsQueue) returns (registered: nat, active: nat)
    requires q.maxBatchSize == Some(10)
    ensures registered == 2 && active == 1
  {
    var listener := StartedWithTwo(client, q);
    ghost var started := listener.consumerMap;
    var o, cancelled := listener.SetConsumerCount(1);
    ghost var down := cancelled;
    assert |down| == 1 && down <= started.Keys;
    o, cancelled := listener.SetConsumerCount(2);
    assert cancelled == {};
    assert listener.ActiveIds() == started.Keys - down;
    CardinalityOfDifference(started.Keys, down);
    registered := |listener.consumerMap|;
    active := |listener.ActiveIds()|;
  }

  /** The start of the scenario above: two consumers scheduled and running. */
  method StartedWithTwo(client: ClientRef, q: SqsQueue) returns (listener: SqsMessageListener)
    requires q.maxBatchSize == Some(10)
    ensures fresh(listener) && listener.Valid() && listener.isRunning
    ensures |listener.consumerMap| == 2
    ensures forall id :: id in listener.consumerMap ==> listener.consumerMap[id].future == Running
  {
    listener := new SqsMessageListener(Some(client));
    listener.SetQueue(Some(q));
    var o, cancelled := listener.SetConsumerCount(2);
    o := listener.Initialize();
    o := listener.Start();
    assert o == Done;
  }

  /**
   * `destroy` leaves `isRunning` set, so a later `start` schedules nothing and
   * the listener has no active consumer; scaling up then submits to the
   * shut-down loop executor and is rejected.
   */
  method RestartAfterDestroyScenario(client: ClientRef, q: SqsQueue)
    returns (running: bool, active: nat, scaleUp: Outcome)
    requires q.maxBatchSize == Some(10)
    ensures running && active == 0 && scaleUp == Threw(RejectedExecution)
  {
    var listener := new SqsMessageListener(Some(client));
    listener.SetQueue(Some(q));
    var o := listener.Initialize();
    o := listener.Start();
    var stopped, warned;
    o, stopped, warned := listener.Destroy(true, true);
    o := listener.Start();
    running := listener.IsRunning();
    assert listener.ActiveIds() == {};
    active := |listener.ActiveIds()|;
    var cancelled;
    scaleUp, cancelled := listener.SetConsumerCount(2);
  }
}
