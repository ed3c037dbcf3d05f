# simple-sqs-listener, modelled in Dafny

simple-sqs-listener is a small Java library that consumes Amazon SQS queues.
An `SqsMessageListener` runs a fixed number of *consumers*. Each consumer is
a loop task on a dedicated pool:

- it long-polls one queue for a batch of messages;
- it hands every message to the queue's handler on a second "task" pool;
- it waits for the whole batch;
- when auto-acknowledgement is on, it deletes the messages that were handled
  successfully, in one batch call.

The listener is started, resized and destroyed through a small lifecycle.

Around that core sit:

- a fluent `SqsMessageListenerBuilder` and the `SqsQueue` value it builds;
- two thread factories that number the threads they create;
- a message handler that routes a message to a method by its `messageType`
  attribute;
- two Spring integrations:
  - the `@SqsListener` post-processor, its listener factory and
    `DefaultSqsListenerRegistry`;
  - the `@SqsMessageHandler` post-processor and `SqsMessageListenerManager`.

The model follows the code file by file:

- **Values become datatypes and functions.** This covers the queue and its
  attributes, the routing table, the receive and delete requests, the
  `@SqsListener` attribute resolution, and queue merging.
- **Objects whose fields change become classes.** These are the listener, the
  builder, the thread factories, the registry, the manager and both
  post-processors. The listener factory is a class too, but its fields never
  change after construction. Their methods carry `modifies` frames and state what
  becomes of every field they may change. The walks over the manager's
  listeners and over a bean's handler methods state, entry by entry, which
  listener each name holds and what became of it.
- **Loops become methods with invariants, proved against a specification
  function.** Examples are the batch dispatch loop, the scale-down loop, the
  method-mapping loop and the registry's `forEach`.

Java's `int` is modelled exactly where it matters:

- the pool size `consumerCount * maxBatchSize + 1` wraps;
- `AtomicInteger` counters wrap after 2^32 calls;
- `Integer.valueOf` accepts exactly the `int` range.

Exceptions are values (`Outcome`, `Result`), so the error paths of the source
are branches of the model. The exceptions of code outside the core, such as a
listener's `subscribe` or the SDK's calls, are inputs to the model.

A consumer's life is one turn at a time. `Batch.Iterate` is the specification
of one pass of `QueueConsumer.run`: the receive, the dispatch, the wait and the
acknowledgement. `Listener.SqsMessageListener.ConsumerStep` runs that turn for
one registered consumer.

Quirks of the code the model keeps:

- After an SDK error on receive, a consumer pauses 2 seconds
  (`SqsMessageListener.java` line 260).
- `terminate` shuts down the task executor even when it was supplied from
  outside, for example by the builder or the Spring factory. The model
  records that shutdown on the terminated listener only (see "Left out").
- The consumer loop body is not guarded. An exception other than an SDK
  receive error escapes `run` and finishes that consumer's future, which is
  then no longer active.
- Interceptors are stored in the queue but never called by this revision of
  the processing code.
- `destroy` does not clear `isRunning`. A destroyed listener still reports
  running, and a later `start` schedules nothing
  (`Listener.RestartAfterDestroyScenario`). The same holds for
  `SqsMessageListenerManager.stop`
  (`ManagerScenarios.StartAfterRefreshScenario`).
- Scale-down cancels consumers but leaves them registered. They still count
  toward the size the next scale-up compares against. Scaling a running
  listener from 2 to 1 to 2 therefore leaves one active consumer, not two
  (`Listener.ScaleDownThenUpScenario`).

## Model

| member | source | states |
|---|---|---|
| JavaLang.Int32 | core/src/main/java/com/vladc/sqslistener/SqsMessageListener.java:108 | Java `int` arithmetic: the result lies in the `int` range, is congruent to the exact value modulo 2^32, and is the exact value when that fits |
| JavaLang.CounterValue | core/src/main/java/com/vladc/sqslistener/ConfigurableThreadFactory.java:10 | the value the (k+1)-th `getAndIncrement` of an `AtomicInteger(1)` returns is k+1 until the counter wraps |
| JavaLang.CounterStep | core/src/main/java/com/vladc/sqslistener/ConfigurableThreadFactory.java:44 | `getAndIncrement` stores the wrapped successor of the value it returns, which is the value the next call returns |
| JavaLang.CounterValueInjective | core/src/main/java/com/vladc/sqslistener/ConfigurableThreadFactory.java:44 | the counter returns 2^32 distinct values before it repeats one |
| JavaText.IntToStringInjective | core/src/main/java/com/vladc/sqslistener/ConfigurableThreadFactory.java:43-44 | `%d` spells different `int`s differently |
| JavaText.NumberedNamesDistinct | core/src/main/java/com/vladc/sqslistener/ConfigurableThreadFactory.java:43-44 | names made of one prefix and successive counter values are distinct within 2^32 calls |
| JavaText.ParseInt | spring/src/main/java/com/vladc/sqslistener/internal/MessageListenerAnnotatedMethodBeanPostProcessor.java:185 | `Integer.valueOf(String)`: a parsed value lies in the `int` range and comes from a non-empty string; every failure is a NumberFormatException carrying the input |
| JavaText.ParseIntOfIntToString | spring/src/main/java/com/vladc/sqslistener/internal/MessageListenerAnnotatedMethodBeanPostProcessor.java:185 | parsing undoes `%d` formatting for every `int`, negative values and `MIN_VALUE` included |
| JavaText.CodeUnits | core/src/main/java/com/vladc/sqslistener/SqsQueue.java:80-83 | a character is one UTF-16 code unit, itself, below U+10000, and a high then a low surrogate above it |
| JavaText.CodeUnitsDecode | core/src/main/java/com/vladc/sqslistener/SqsQueue.java:80-83 | the surrogate pair of a supplementary character decodes back to that character |
| JavaText.Utf16 | core/src/main/java/com/vladc/sqslistener/SqsQueue.java:80-83 | a string holds at least as many UTF-16 code units as characters |
| JavaText.UnitsHashCode | core/src/main/java/com/vladc/sqslistener/SqsQueue.java:80-83 | `h = 31 * h + unit` over code units in `int` arithmetic stays in the `int` range |
| JavaText.StringHashCode | core/src/main/java/com/vladc/sqslistener/SqsQueue.java:80-83 | `String.hashCode` hashes the UTF-16 code units, not the characters, and stays in the `int` range |
| JavaText.StringHashCodeBmp | core/src/main/java/com/vladc/sqslistener/SqsQueue.java:80-83 | for a string without supplementary characters the code units are exactly the characters |
| JavaText.StringHashCodeSurrogates | core/src/main/java/com/vladc/sqslistener/SqsQueue.java:80-83 | a supplementary character hashes as its two surrogates: U+1F600 gives 31 * 0xD83D + 0xDE00 |
| SqsTypes.SubmitCheck | core/src/main/java/com/vladc/sqslistener/SqsMessageListener.java:121-122 | `submit` accepts the task exactly when the executor is non-null and not shut down; otherwise it throws NullPointerException or RejectedExecutionException |
| JavaUtil.Enumerate | core/src/main/java/com/vladc/sqslistener/SqsMessageListener.java:159-160 | a `ConcurrentHashMap` enumeration lists every key exactly once, in an order left open |
| JavaUtil.PutIfAbsent | spring/src/main/java/com/vladc/sqslistener/internal/DefaultSqsListenerRegistry.java:66 | `putIfAbsent` leaves the key bound, keeps every entry already present, and binds an absent key to the value |
| Queue.Equals | core/src/main/java/com/vladc/sqslistener/SqsQueue.java:68-78 | `equals` returns true only for a queue with the same url, and throws (NullPointerException) only when this url is null |
| Queue.HashCode | core/src/main/java/com/vladc/sqslistener/SqsQueue.java:80-83 | `Objects.hash(url)`, 31 plus the url's UTF-16 `String.hashCode` (0 for null), stays in the `int` range |
| Queue.EqualsReflexive | core/src/main/java/com/vladc/sqslistener/SqsQueue.java:70-72 | every queue equals itself, even one with a null url |
| Queue.EqualsNullOrOtherClassIsFalse | core/src/main/java/com/vladc/sqslistener/SqsQueue.java:73-75 | against null or an object of another class, `equals` is false |
| Queue.EqualsIffSameUrl | core/src/main/java/com/vladc/sqslistener/SqsQueue.java:76-77 | two distinct queue instances are equal exactly when their urls are, whatever their other fields |
| Queue.EqualsSymmetric | core/src/main/java/com/vladc/sqslistener/SqsQueue.java:68-78 | between queues with urls, `equals` is symmetric |
| Queue.EqualQueuesHashEqually | core/src/main/java/com/vladc/sqslistener/SqsQueue.java:68-83 | equal queues have equal hash codes |
| Routing.MethodMapping.GetMethod | spring/src/main/java/com/vladc/sqslistener/internal/MessageAttributeMappingMessageHandler.java:59-61 | `getOrDefault`: the mapped method for a mapped type, the default method otherwise |
| Routing.MethodMapping.GetDefaultMethod | spring/src/main/java/com/vladc/sqslistener/internal/MessageAttributeMappingMessageHandler.java:63-65 | the default method is one the mapping routes to, and the method `getMethod` gives every unmapped type |
| Routing.Handle | spring/src/main/java/com/vladc/sqslistener/internal/MessageAttributeMappingMessageHandler.java:22-43 | a message is routed only to a method of the mapping; a failure is an IllegalStateException (no method applies) or a NullPointerException (a type attribute without a string value) |
| Routing.HandleUntypedUsesDefault | spring/src/main/java/com/vladc/sqslistener/internal/MessageAttributeMappingMessageHandler.java:26-31 | without a `messageType` attribute the default method is invoked |
| Routing.HandleUntypedWithoutDefaultFails | spring/src/main/java/com/vladc/sqslistener/internal/MessageAttributeMappingMessageHandler.java:32 | without the attribute and without a default, handling throws with the fixed message |
| Routing.HandleMappedType | spring/src/main/java/com/vladc/sqslistener/internal/MessageAttributeMappingMessageHandler.java:35-37 | a mapped `messageType` invokes its method, whatever the default |
| Routing.HandleUnmappedTypeUsesDefault | spring/src/main/java/com/vladc/sqslistener/internal/MessageAttributeMappingMessageHandler.java:59-61 | an unmapped `messageType` falls back to the default method |
| Routing.HandleUnmappedTypeWithoutDefaultFails | spring/src/main/java/com/vladc/sqslistener/internal/MessageAttributeMappingMessageHandler.java:38-41 | an unmapped `messageType` without default throws, naming the type |
| Routing.HandleNullTypeFails | spring/src/main/java/com/vladc/sqslistener/internal/MessageAttributeMappingMessageHandler.java:35 | a `messageType` attribute without a string value looks up a null key, a NullPointerException even with a default method |
| Routing.HandleSucceedsIffMethodApplies | spring/src/main/java/com/vladc/sqslistener/internal/MessageAttributeMappingMessageHandler.java:22-43 | handling succeeds exactly when the type attribute, if present, has a string value and there is a default method or the type is mapped |
| Batch.ReceiveRequestFor | core/src/main/java/com/vladc/sqslistener/SqsMessageListener.java:244-250 | the receive request carries the queue url, batch size and visibility timeout, waits 20 s with long polling and 1 s without; a null flag throws |
| Batch.HandlingEffectOf | core/src/main/java/com/vladc/sqslistener/SqsMessageListener.java:229 | a null handler throws NullPointerException; the handler returns normally exactly when the router (if any) finds a method and the user code returns |
| Batch.ProcessMessage | core/src/main/java/com/vladc/sqslistener/SqsMessageListener.java:226-241 | a message succeeds iff its handler returns; an exception is reported to the error handler if there is one and logged with url and message id otherwise, never both; an `Error` escapes unreported |
| Batch.ProcessAll | core/src/main/java/com/vladc/sqslistener/SqsMessageListener.java:192-195 | every message of the batch is processed once; the model runs the tasks in receive order, one of the orders the pool allows |
| Batch.Successful | core/src/main/java/com/vladc/sqslistener/SqsMessageListener.java:189-195 | the success list holds at most the batch's messages, all taken from it; all of them when every message succeeds, none when none does |
| Batch.SuccessIndices | core/src/main/java/com/vladc/sqslistener/SqsMessageListener.java:190 | the successful positions, strictly increasing, and exactly the successful ones |
| Batch.SuccessfulAtSuccessIndices | core/src/main/java/com/vladc/sqslistener/SqsMessageListener.java:189-195 | the success list holds exactly the successful messages, each once, listed in receive order, the completion order the model chooses |
| Batch.DispatchBatch | core/src/main/java/com/vladc/sqslistener/SqsMessageListener.java:186-201 | the dispatch loop processes each message once and counts the latch down once per message, so the latch reaches zero; the success list is the successes, listed in receive order |
| Batch.DeleteEntries | core/src/main/java/com/vladc/sqslistener/SqsMessageListener.java:269-274 | one entry per message, in list order, carrying that message's id and receipt handle |
| Batch.DeleteRequestFor | core/src/main/java/com/vladc/sqslistener/SqsMessageListener.java:268-284 | no delete call for an empty list; otherwise one request with the queue url and all the entries |
| Batch.Acknowledge | core/src/main/java/com/vladc/sqslistener/SqsMessageListener.java:203-205 | with `autoAcknowledge` exactly the successful messages are deleted in one call; a null flag throws, and only a non-SDK delete failure escapes |
| Batch.Iterate | core/src/main/java/com/vladc/sqslistener/SqsMessageListener.java:183-206 | one turn: results only for a delivered batch, one per message; a pause only after an SDK receive error, with no results; a delete only after the receive request was sent, to the queue's url; no request sent only when building it throws |
| Batch.RunIteration | core/src/main/java/com/vladc/sqslistener/SqsMessageListener.java:183-206 | one turn of the consumer loop computes exactly what the specification function of a turn gives |
| Batch.IterateSendsQueueRequest | core/src/main/java/com/vladc/sqslistener/SqsMessageListener.java:244-253 | every turn sends the queue's receive request, whatever happens after |
| Batch.SdkReceiveErrorSkipsTheBatch | core/src/main/java/com/vladc/sqslistener/SqsMessageListener.java:252-265 | after an SDK receive error the consumer pauses 2 s, runs no handler and deletes nothing |
| Batch.NoDeleteWithoutAutoAcknowledge | core/src/main/java/com/vladc/sqslistener/SqsMessageListener.java:203-205 | without `autoAcknowledge` a turn never deletes anything |
| Batch.DeliveredBatchIsProcessedAndAcknowledged | core/src/main/java/com/vladc/sqslistener/SqsMessageListener.java:183-206 | a delivered batch is processed message by message, every success is in the success list, and the delete request carries exactly their (id, receipt handle) pairs, in the success list's order |
| Listener.Consumer.Cancel | core/src/main/java/com/vladc/sqslistener/SqsMessageListener.java:165 | `cancel(false)` makes the future done and leaves a done future as it is |
| Listener.CancelAll | core/src/main/java/com/vladc/sqslistener/SqsMessageListener.java:127 | every registered consumer is cancelled, none added or dropped |
| Listener.CancelCount | core/src/main/java/com/vladc/sqslistener/SqsMessageListener.java:158-167 | scale-down cancels `size - target` consumers computed in `int` arithmetic, none when that difference is not positive or wraps to a negative value, and never more than are registered |
| Listener.PoolSize | core/src/main/java/com/vladc/sqslistener/SqsMessageListener.java:108 | the default pool size is `consumerCount * maxBatchSize + 1` modulo 2^32; a null queue or batch size throws NullPointerException |
| Listener.InitialTaskExecutor | core/src/main/java/com/vladc/sqslistener/SqsMessageListener.java:107-117 | an executor already set is kept; otherwise a pool of `PoolSize` threads named "sqs-listener", idle threads timing out after 120 s; a non-positive size throws |
| Listener.PoolSizeWithoutOverflow | core/src/main/java/com/vladc/sqslistener/SqsMessageListener.java:108 | without overflow the pool has one thread per consumer and batch slot, plus one |
| Listener.PoolSizeOverflow | core/src/main/java/com/vladc/sqslistener/SqsMessageListener.java:108-109 | 65536 consumers with batches of 32768 overflow the pool size, and `initialize` throws |
| Listener.SqsMessageListener.ActiveIds | core/src/main/java/com/vladc/sqslistener/SqsMessageListener.java:144-147 | the ids `isActive` holds for: registered and not done |
| Listener.SqsMessageListener.constructor | core/src/main/java/com/vladc/sqslistener/SqsMessageListener.java:47-49 | a new listener is stopped, with one consumer, no queue, no executors and no consumers |
| Listener.SqsMessageListener.IsActive | core/src/main/java/com/vladc/sqslistener/SqsMessageListener.java:144-147 | a consumer is active exactly when it is registered and its future is not done |
| Listener.SqsMessageListener.WithQueue | core/src/main/java/com/vladc/sqslistener/SqsMessageListenerBuilder.java:90 | the constructor `build` calls: a stopped listener of the client, queue and supplied executor |
| Listener.SqsMessageListener.SetTaskExecutor | core/src/main/java/com/vladc/sqslistener/SqsMessageListener.java:64-66 | only the task executor changes |
| Listener.SqsMessageListener.SetQueue | core/src/main/java/com/vladc/sqslistener/SqsMessageListener.java:73-75 | only the queue changes; consumers already scheduled keep theirs |
| Listener.SqsMessageListener.Initialize | core/src/main/java/com/vladc/sqslistener/SqsMessageListener.java:77-81 | a fixed loop pool of `consumerCount` threads (a non-positive count throws), then the task executor by `InitialTaskExecutor` |
| Listener.SqsMessageListener.AddConsumer | core/src/main/java/com/vladc/sqslistener/SqsMessageListener.java:121-122 | one fresh consumer is registered, running the current queue, unless the submission throws |
| Listener.SqsMessageListener.ScheduleConsumers | core/src/main/java/com/vladc/sqslistener/SqsMessageListener.java:119-124 | exactly `consumerCount` fresh consumers are added and no old one changes, or nothing when the first submission throws |
| Listener.SqsMessageListener.Start | core/src/main/java/com/vladc/sqslistener/SqsMessageListener.java:83-90 | a no-op while running; otherwise schedules the consumers and sets `isRunning`, unless scheduling throws |
| Listener.SqsMessageListener.IsRunning | core/src/main/java/com/vladc/sqslistener/SqsMessageListener.java:98-100 | `isRunning` reports the flag `start` sets, which neither `destroy` nor `terminate` clears |
| Listener.SqsMessageListener.AdjustConsumerCount | core/src/main/java/com/vladc/sqslistener/SqsMessageListener.java:149-169 | scale-up adds exactly the missing fresh consumers; scale-down cancels `CancelCount` registered consumers, keeps every id registered and changes nothing else |
| Listener.SqsMessageListener.NotYetEnumerated | core/src/main/java/com/vladc/sqslistener/SqsMessageListener.java:163-164 | the enumeration yields a registered consumer it has not visited |
| Listener.SqsMessageListener.SetConsumerCount | core/src/main/java/com/vladc/sqslistener/SqsMessageListener.java:54-59 | while running the registry is adjusted first and a throwing adjustment keeps the old count; while stopped only the count changes |
| Listener.SqsMessageListener.Terminate | core/src/main/java/com/vladc/sqslistener/SqsMessageListener.java:126-142 | every consumer is cancelled and the registry emptied, both executors shut down (a null one throws NullPointerException), a warning iff one did not terminate; `isRunning` is untouched |
| Listener.SqsMessageListener.Destroy | core/src/main/java/com/vladc/sqslistener/SqsMessageListener.java:92-96 | `terminate`: succeeds iff both executors exist, leaves no consumer registered, and shuts down the task executor whenever it exists, then the loop executor if it exists too |
| Listener.SqsMessageListener.ConsumerStep | core/src/main/java/com/vladc/sqslistener/SqsMessageListener.java:182-207 | an inactive consumer does nothing; an active one runs one turn of its own queue, and an exception escaping the turn finishes its future |
| Listener.ScaleDownThenUpScenario | core/src/main/java/com/vladc/sqslistener/SqsMessageListener.java:149-169 | scaling a running listener 2 -> 1 -> 2 leaves two registered consumers of which one is active |
| Listener.RestartAfterDestroyScenario | core/src/main/java/com/vladc/sqslistener/SqsMessageListener.java:83-96 | after `destroy` the listener still reports running, `start` schedules nothing, and scaling up is rejected |
| Builder.QueueOf | core/src/main/java/com/vladc/sqslistener/SqsMessageListenerBuilder.java:77-88 | every queue field is the builder field of the same name |
| Builder.DefaultQueue | core/src/main/java/com/vladc/sqslistener/SqsMessageListenerBuilder.java:13-20 | an unset field carries the default: batches of 10, 60 s visibility, long polling, auto-acknowledge, one consumer, no interceptors |
| Builder.SameUrlBuildsEqualQueues | core/src/main/java/com/vladc/sqslistener/SqsMessageListenerBuilder.java:77-88 | two builds with the same url give equal queues with equal hash codes |
| Builder.SqsMessageListenerBuilder.constructor | core/src/main/java/com/vladc/sqslistener/SqsMessageListenerBuilder.java:10-20 | a new builder holds the defaults |
| Builder.SqsMessageListenerBuilder.Client | core/src/main/java/com/vladc/sqslistener/SqsMessageListenerBuilder.java:22-25 | sets the client only and returns the builder itself |
| Builder.SqsMessageListenerBuilder.WithExecutor | core/src/main/java/com/vladc/sqslistener/SqsMessageListenerBuilder.java:27-30 | sets the executor only and returns the builder itself |
| Builder.SqsMessageListenerBuilder.Url | core/src/main/java/com/vladc/sqslistener/SqsMessageListenerBuilder.java:32-35 | sets the url only and returns the builder itself |
| Builder.SqsMessageListenerBuilder.MaxBatchSize | core/src/main/java/com/vladc/sqslistener/SqsMessageListenerBuilder.java:37-40 | sets the batch size only and returns the builder itself |
| Builder.SqsMessageListenerBuilder.VisibilityTimeoutSeconds | core/src/main/java/com/vladc/sqslistener/SqsMessageListenerBuilder.java:42-45 | sets the visibility timeout only and returns the builder itself |
| Builder.SqsMessageListenerBuilder.LongPolling | core/src/main/java/com/vladc/sqslistener/SqsMessageListenerBuilder.java:47-50 | sets long polling only and returns the builder itself |
| Builder.SqsMessageListenerBuilder.Handler | core/src/main/java/com/vladc/sqslistener/SqsMessageListenerBuilder.java:52-55 | sets the message handler only and returns the builder itself |
| Builder.SqsMessageListenerBuilder.ErrorHandler | core/src/main/java/com/vladc/sqslistener/SqsMessageListenerBuilder.java:57-60 | sets the error handler only and returns the builder itself |
| Builder.SqsMessageListenerBuilder.AutoAcknowledge | core/src/main/java/com/vladc/sqslistener/SqsMessageListenerBuilder.java:62-65 | sets auto-acknowledge only and returns the builder itself |
| Builder.SqsMessageListenerBuilder.Concurrency | core/src/main/java/com/vladc/sqslistener/SqsMessageListenerBuilder.java:67-70 | sets the concurrency only and returns the builder itself |
| Builder.SqsMessageListenerBuilder.Interceptors | core/src/main/java/com/vladc/sqslistener/SqsMessageListenerBuilder.java:72-75 | sets the interceptors only and returns the builder itself |
| Builder.SqsMessageListenerBuilder.Build | core/src/main/java/com/vladc/sqslistener/SqsMessageListenerBuilder.java:77-91 | a fresh, stopped listener of the builder's client and executor over `QueueOf` the fields |
| Builder.BuildScenario | core/src/main/java/com/vladc/sqslistener/SqsMessageListenerBuilder.java:22-91 | in a setter chain the last value set wins and unset fields keep their defaults |
| ThreadFactories.ConfigurableNamesDistinct | core/src/main/java/com/vladc/sqslistener/ConfigurableThreadFactory.java:43-44 | numbered threads of one factory get distinct names within 2^32 threads |
| ThreadFactories.PrefixedNamesDistinct | core/src/main/java/com/vladc/sqslistener/PrefixedThreadFactory.java:21 | threads of one prefixed factory get distinct names within 2^32 threads |
| ThreadFactories.ConfigurableThreadFactory.NewDaemon | core/src/main/java/com/vladc/sqslistener/ConfigurableThreadFactory.java:22-24 | a numbering factory of daemon threads, counter at 1 |
| ThreadFactories.ConfigurableThreadFactory.NewFactory | core/src/main/java/com/vladc/sqslistener/ConfigurableThreadFactory.java:26-28 | a numbering factory of non-daemon threads, counter at 1 |
| ThreadFactories.ConfigurableThreadFactory.NewWithName | core/src/main/java/com/vladc/sqslistener/ConfigurableThreadFactory.java:30-32 | a fixed-name factory of non-daemon threads |
| ThreadFactories.ConfigurableThreadFactory.NewDaemonWithName | core/src/main/java/com/vladc/sqslistener/ConfigurableThreadFactory.java:34-36 | a fixed-name factory of daemon threads |
| ThreadFactories.ConfigurableThreadFactory.NewThread | core/src/main/java/com/vladc/sqslistener/ConfigurableThreadFactory.java:38-47 | the thread runs `r` with the factory's daemon flag; a fixed name is used as is and does not move the counter, otherwise the name is "<prefix>-thread-<next number>" |
| ThreadFactories.PrefixedThreadFactory.constructor | core/src/main/java/com/vladc/sqslistener/PrefixedThreadFactory.java:13-15 | a factory for the prefix, counter at 1 |
| ThreadFactories.PrefixedThreadFactory.NewThread | core/src/main/java/com/vladc/sqslistener/PrefixedThreadFactory.java:18-23 | a non-daemon thread named "<prefix>-<next number>"; the counter moves by one |
| ThreadFactories.ConfigurableFactoryScenario | core/src/main/java/com/vladc/sqslistener/ConfigurableThreadFactory.java:38-47 | the first two threads of `newFactory("sqs-listener")` are "sqs-listener-thread-1" and "-2" |
| ThreadFactories.NamedFactoryScenario | core/src/main/java/com/vladc/sqslistener/ConfigurableThreadFactory.java:43 | a name factory gives every thread the same name |
| SpringBeans.GetErrorHandler | spring/src/main/java/com/vladc/sqslistener/internal/MessageListenerAnnotatedMethodBeanPostProcessor.java:193-202 | an empty attribute gives no handler; a null value gives none, an `ErrorHandler` bean gives that bean, and any failure is an IllegalStateException with the fixed message |
| Registry.NextIdIsFresh | spring/src/main/java/com/vladc/sqslistener/internal/DefaultSqsListenerRegistry.java:65-66 | until the counter wraps, the next id was never given out, so `putIfAbsent` adds the listener |
| Registry.LaterIdNotIssued | spring/src/main/java/com/vladc/sqslistener/internal/DefaultSqsListenerRegistry.java:65-66 | an id the counter gives out later, before it wraps, was never given out before |
| Registry.RunIdsAt | spring/src/main/java/com/vladc/sqslistener/internal/DefaultSqsListenerRegistry.java:65 | the i-th id of a run of registrations from the counter's (k+1)-th value is "sqsListener" followed by the (k+i+1)-th value |
| Registry.RunIdsDistinct | spring/src/main/java/com/vladc/sqslistener/internal/DefaultSqsListenerRegistry.java:65 | until the counter wraps, the registrations of a run take distinct ids |
| Registry.RunIdsFresh | spring/src/main/java/com/vladc/sqslistener/internal/DefaultSqsListenerRegistry.java:65-66 | until the counter wraps, no id a run takes is already in a registry that holds only earlier ids |
| Registry.PutEach | spring/src/main/java/com/vladc/sqslistener/internal/DefaultSqsListenerRegistry.java:66 | `putIfAbsent` of each listener of a run in turn keeps every entry already present and binds every id of the run |
| Registry.PutEachAddsEach | spring/src/main/java/com/vladc/sqslistener/internal/DefaultSqsListenerRegistry.java:66 | under distinct ids none of which is taken, every listener of a run ends up under its own id |
| Registry.PutEachKeys | spring/src/main/java/com/vladc/sqslistener/internal/DefaultSqsListenerRegistry.java:66 | a run binds no id besides those already in the map and its own |
| Registry.PutEachStep | spring/src/main/java/com/vladc/sqslistener/internal/DefaultSqsListenerRegistry.java:62-69 | one more registration of a run is one more `putIfAbsent`, under the next id |
| Registry.RunExtends | spring/src/main/java/com/vladc/sqslistener/internal/DefaultSqsListenerRegistry.java:62-69 | after at most one more registration the map is the run's map extended by the listener registered, if any |
| Registry.RunRegistersEach | spring/src/main/java/com/vladc/sqslistener/internal/DefaultSqsListenerRegistry.java:62-69 | until the counter wraps, a run of registrations from the (k+1)-th finds its i-th listener under "sqsListener<k+i+1>" |
| Registry.DefaultSqsListenerRegistry.constructor | spring/src/main/java/com/vladc/sqslistener/internal/DefaultSqsListenerRegistry.java:19-23 | an empty, stopped registry whose counter starts at 1 |
| Registry.DefaultSqsListenerRegistry.SetApplicationContext | spring/src/main/java/com/vladc/sqslistener/internal/DefaultSqsListenerRegistry.java:25-30 | only a configurable context is kept; nothing else changes |
| Registry.DefaultSqsListenerRegistry.CallEach | spring/src/main/java/com/vladc/sqslistener/internal/DefaultSqsListenerRegistry.java:34 | `forEach` calls the registered listeners in the given enumeration order, each exactly once under its id when none throws; otherwise the calls stop at the first that throws, and its exception escapes |
| Registry.DefaultSqsListenerRegistry.Start | spring/src/main/java/com/vladc/sqslistener/internal/DefaultSqsListenerRegistry.java:32-36 | every listener is subscribed once, then the registry runs; a `subscribe` that throws ends the walk and escapes, and the flag is left as it was |
| Registry.DefaultSqsListenerRegistry.Stop | spring/src/main/java/com/vladc/sqslistener/internal/DefaultSqsListenerRegistry.java:38-50 | the registry stops, every listener is destroyed once, then each is awaited 20 s in the same order; a `destroy` that throws ends the walk before any wait, an `awaitTermination` that throws ends the second walk, and either escapes |
| Registry.DefaultSqsListenerRegistry.DestroyThenAwait | spring/src/main/java/com/vladc/sqslistener/internal/DefaultSqsListenerRegistry.java:40-49 | both walks of `stop` follow one enumeration of the unchanged map: the listeners are awaited in the order they were destroyed, and only if no `destroy` threw |
| Registry.DefaultSqsListenerRegistry.IsRunning | spring/src/main/java/com/vladc/sqslistener/internal/DefaultSqsListenerRegistry.java:53-55 | `isRunning` reports the flag a complete `start` sets and `stop` clears |
| Registry.DefaultSqsListenerRegistry.NextId | spring/src/main/java/com/vladc/sqslistener/internal/DefaultSqsListenerRegistry.java:65 | the id is "sqsListener" and the counter value of this registration; the counter keeps matching the registrations |
| Registry.DefaultSqsListenerRegistry.RegisterListener | spring/src/main/java/com/vladc/sqslistener/internal/DefaultSqsListenerRegistry.java:62-69 | null throws before the counter moves; a fresh id gets the listener and a singleton registration (a null context throws after the put); an id taken after wrap-around keeps its entry |
| Registry.FirstIdsScenario | spring/src/main/java/com/vladc/sqslistener/internal/DefaultSqsListenerRegistry.java:62-69 | the first two listeners are named "sqsListener1" and "sqsListener2" and registered as beans in that order |
| Manager.ShutDown | core/src/main/java/com/vladc/sqslistener/SqsMessageListener.java:130-131 | `shutdown()` marks an existing executor shut down and keeps its kind; there is nothing to shut down without one |
| Manager.StartOne | spring/src/main/java/com/vladc/sqslistener/SqsMessageListenerManager.java:58 | a listener's `start` changes only its running flag; a running one is left alone, a stopped one it starts gets its count of new consumers over its queue; it throws exactly when the loop executor refuses a stopped listener with consumers to schedule |
| Manager.DestroyOne | spring/src/main/java/com/vladc/sqslistener/SqsMessageListenerManager.java:64 | a listener's `destroy` leaves no consumer and keeps its flag, queue and count; it throws exactly for an uninitialized listener, and when it returns both executors are shut down |
| Manager.StartStep | spring/src/main/java/com/vladc/sqslistener/SqsMessageListenerManager.java:58 | one turn of `forEach(start)`: the listener under the id is restarted from its state when the walk began, and the turn throws exactly when that listener fails to start |
| Manager.StartEach | spring/src/main/java/com/vladc/sqslistener/SqsMessageListenerManager.java:58 | `forEach(start)`: every listener is restarted from its state before the walk, all run when no start throws, and it throws exactly when some listener fails to start |
| Manager.StopStep | spring/src/main/java/com/vladc/sqslistener/SqsMessageListenerManager.java:64 | one turn of `forEach(destroy)`: the turn throws exactly when the listener under the id is uninitialized; otherwise it is destroyed |
| Manager.StopEach | spring/src/main/java/com/vladc/sqslistener/SqsMessageListenerManager.java:64 | `forEach(destroy)`: every listener keeps its flag, queue and count with its executors as they were or shut down; when nothing throws every listener is destroyed; it throws exactly when some listener is uninitialized |
| Manager.SqsMessageListenerManager.constructor | spring/src/main/java/com/vladc/sqslistener/SqsMessageListenerManager.java:22-26 | no context, not refreshed, no listener |
| Manager.SqsMessageListenerManager.SetApplicationContext | spring/src/main/java/com/vladc/sqslistener/SqsMessageListenerManager.java:28-33 | only a configurable context is kept; nothing else changes |
| Manager.SqsMessageListenerManager.OnApplicationEvent | spring/src/main/java/com/vladc/sqslistener/SqsMessageListenerManager.java:90-95 | only the refresh of the manager's own context sets the flag, which is never cleared |
| Manager.SqsMessageListenerManager.RegisterListener | spring/src/main/java/com/vladc/sqslistener/SqsMessageListenerManager.java:35-48 | null throws; otherwise the listener replaces any under the id (with a warning), is registered as a bean (a null context or a name already bound throws, leaving it uninitialized) and then initialized |
| Manager.SqsMessageListenerManager.IsRunning | spring/src/main/java/com/vladc/sqslistener/SqsMessageListenerManager.java:67-75 | true exactly when some listener is running |
| Manager.SqsMessageListenerManager.Start | spring/src/main/java/com/vladc/sqslistener/SqsMessageListenerManager.java:55-60 | nothing before the refresh; after it every listener is restarted (a running one untouched, a started one with its new consumers), all run unless one throws, and it throws exactly when some listener fails to start |
| Manager.SqsMessageListenerManager.Stop | spring/src/main/java/com/vladc/sqslistener/SqsMessageListenerManager.java:62-65 | running flags, queues and counts are untouched and executors only shut down; it throws exactly when some listener is uninitialized, and otherwise every listener is left without consumers and with both executors shut down |
| ManagerScenarios.StartAfterRefreshScenario | spring/src/main/java/com/vladc/sqslistener/SqsMessageListenerManager.java:55-75 | nothing runs before the refresh, the listener runs after it, and after `stop` the manager still reports running with no consumer |
| ManagerScenarios.DuplicateIdScenario | spring/src/main/java/com/vladc/sqslistener/SqsMessageListenerManager.java:35-48 | a second listener under a taken id replaces the first with a warning, then bean registration throws and it is never initialized |
| ListenerFactory.InterceptorsOf | spring/src/main/java/com/vladc/sqslistener/internal/DefaultSqsMessageListenerFactory.java:40 | a null filter list becomes the empty list |
| ListenerFactory.ListenerQueueCopiesAttributes | spring/src/main/java/com/vladc/sqslistener/internal/DefaultSqsMessageListenerFactory.java:29-41 | every attribute reaches the listener's queue unchanged and the interceptor list is never null |
| ListenerFactory.SameUrlGivesEqualQueues | spring/src/main/java/com/vladc/sqslistener/internal/DefaultSqsMessageListenerFactory.java:32 | listeners made for the same url have equal queues |
| ListenerFactory.DefaultSqsMessageListenerFactory.constructor | spring/src/main/java/com/vladc/sqslistener/internal/DefaultSqsMessageListenerFactory.java:18-25 | stores the client, task executor and filters |
| ListenerFactory.DefaultSqsMessageListenerFactory.GetMessageProcessorExecutor | spring/src/main/java/com/vladc/sqslistener/internal/DefaultSqsMessageListenerFactory.java:44-48 | null without a task executor, otherwise its pool, which an uninitialized executor refuses with IllegalStateException |
| ListenerFactory.DefaultSqsMessageListenerFactory.CreateListener | spring/src/main/java/com/vladc/sqslistener/internal/DefaultSqsMessageListenerFactory.java:27-42 | fails with IllegalStateException exactly when the executor does; otherwise a fresh listener, stopped and without consumers, of the factory's client and executor, over the attributes' queue with the factory's filters |
| ListenerPostProcessor.MappingFromFails | spring/src/main/java/com/vladc/sqslistener/internal/MessageListenerAnnotatedMethodBeanPostProcessor.java:156-163 | the mapping loop throws IllegalArgumentException exactly when a non-default handler has a blank message type |
| ListenerPostProcessor.MappingFromDefault | spring/src/main/java/com/vladc/sqslistener/internal/MessageListenerAnnotatedMethodBeanPostProcessor.java:164-166 | the default method is that of the last default handler; without one it is unchanged |
| ListenerPostProcessor.MappingFromTypes | spring/src/main/java/com/vladc/sqslistener/internal/MessageListenerAnnotatedMethodBeanPostProcessor.java:167-169 | the mapped types are exactly the non-blank ones, each to the last handler declaring it; other entries are kept |
| ListenerPostProcessor.MethodMappingOfSpec | spring/src/main/java/com/vladc/sqslistener/internal/MessageListenerAnnotatedMethodBeanPostProcessor.java:151-172 | what `buildMethodMapping` yields: failure iff a misdeclared handler, otherwise every non-blank type routed to its last handler and the default to the last default handler |
| ListenerPostProcessor.ResolveToString | spring/src/main/java/com/vladc/sqslistener/internal/MessageListenerAnnotatedMethodBeanPostProcessor.java:174-181 | succeeds exactly when the expression evaluates to a string; other values, null included, throw IllegalArgumentException naming the expression |
| ListenerPostProcessor.ResolveToInteger | spring/src/main/java/com/vladc/sqslistener/internal/MessageListenerAnnotatedMethodBeanPostProcessor.java:183-186 | a result is the parse of the evaluated string, and each outcome of the parse, a number or NumberFormatException, is passed on; an evaluation failure is passed on, null throws NumberFormatException, a non-string ClassCastException |
| ListenerPostProcessor.ResolveIntegerLiteral | spring/src/main/java/com/vladc/sqslistener/internal/MessageListenerAnnotatedMethodBeanPostProcessor.java:183-186 | an expression that evaluates to a decimal literal resolves to the number written |
| ListenerPostProcessor.CreateQueueAttributes | spring/src/main/java/com/vladc/sqslistener/internal/MessageListenerAnnotatedMethodBeanPostProcessor.java:123-135 | succeeds exactly when all five resolutions do; the attributes are the resolved values, long polling iff LONG and auto-acknowledge iff AUTO |
| ListenerPostProcessor.DefaultListenerAttributes | spring/src/main/java/com/vladc/sqslistener/internal/MessageListenerAnnotatedMethodBeanPostProcessor.java:123-135 | an `@SqsListener` that sets only its url gets batches of 10, 60 s visibility, one consumer, long polling, auto-acknowledge, no error handler |
| ListenerPostProcessor.MethodListenerSpecs | spring/src/main/java/com/vladc/sqslistener/internal/MessageListenerAnnotatedMethodBeanPostProcessor.java:111-116 | one listener per `@SqsListener` method, in the introspector's order, with that method's annotation and a handler invoking it on the bean |
| ListenerPostProcessor.ListenerSpecs | spring/src/main/java/com/vladc/sqslistener/internal/MessageListenerAnnotatedMethodBeanPostProcessor.java:78-121 | a class-level `@SqsListener` with handlers and a valid mapping asks for one listener, routed by that mapping; a class without it asks for `MethodListenerSpecs` |
| ListenerPostProcessor.MessageListenerAnnotatedMethodBeanPostProcessor.constructor | spring/src/main/java/com/vladc/sqslistener/internal/MessageListenerAnnotatedMethodBeanPostProcessor.java:51-55 | stores the factory and registry; the standard resolver until a bean factory is set |
| ListenerPostProcessor.MessageListenerAnnotatedMethodBeanPostProcessor.SetBeanFactory | spring/src/main/java/com/vladc/sqslistener/internal/MessageListenerAnnotatedMethodBeanPostProcessor.java:57-65 | only a configurable listable factory is kept, with its expression resolver |
| ListenerPostProcessor.MessageListenerAnnotatedMethodBeanPostProcessor.BuildMethodMapping | spring/src/main/java/com/vladc/sqslistener/internal/MessageListenerAnnotatedMethodBeanPostProcessor.java:151-172 | the loop computes `MethodMappingOf` the handler methods |
| ListenerPostProcessor.MessageListenerAnnotatedMethodBeanPostProcessor.RegisterListenerFor | spring/src/main/java/com/vladc/sqslistener/internal/MessageListenerAnnotatedMethodBeanPostProcessor.java:98-101 | resolving the attributes or creating the listener may throw before anything is registered; otherwise the one listener made, stopped, over the resolved attributes' queue, is `putIfAbsent` under the registry's next id |
| ListenerPostProcessor.MessageListenerAnnotatedMethodBeanPostProcessor.RegisterNext | spring/src/main/java/com/vladc/sqslistener/internal/MessageListenerAnnotatedMethodBeanPostProcessor.java:111-118 | one turn of the method walk extends the run of registered listeners by the listener made for the next method, if one was made |
| ListenerPostProcessor.MessageListenerAnnotatedMethodBeanPostProcessor.ProcessMultiMethodListener | spring/src/main/java/com/vladc/sqslistener/internal/MessageListenerAnnotatedMethodBeanPostProcessor.java:87-103 | a class without handlers is cached; a misdeclared handler throws before registering; otherwise the registry gains, under its next id, the listener made for the class annotation and routed by the class's method mapping |
| ListenerPostProcessor.MessageListenerAnnotatedMethodBeanPostProcessor.ProcessMethodLevelListener | spring/src/main/java/com/vladc/sqslistener/internal/MessageListenerAnnotatedMethodBeanPostProcessor.java:105-121 | a class without listener methods is cached; otherwise method by method the listener made for its annotation and handler is put under the next id, until one throws; a complete walk resolved every method's attributes |
| ListenerPostProcessor.MessageListenerAnnotatedMethodBeanPostProcessor.PostProcessAfterInitialization | spring/src/main/java/com/vladc/sqslistener/internal/MessageListenerAnnotatedMethodBeanPostProcessor.java:67-85 | AOP infrastructure, cached and non-candidate classes change nothing; otherwise the registry gains, under successive ids, the listeners made for `ListenerSpecs` of the class until one throws, and a class without any is cached |
| HandlerPostProcessor.GetQueueUrl | spring/src/main/java/com/vladc/sqslistener/MessageListenerAnnotatedMethodBeanPostProcessor.java:124-136 | an empty name gives "" without a call; a missing queue is an IllegalArgumentException, other SDK failures escape |
| HandlerPostProcessor.GetQueue | spring/src/main/java/com/vladc/sqslistener/MessageListenerAnnotatedMethodBeanPostProcessor.java:166-176 | an empty attribute names no bean; otherwise the evaluated value cast to a queue, a failed evaluation an IllegalStateException |
| HandlerPostProcessor.GetConfigurer | spring/src/main/java/com/vladc/sqslistener/MessageListenerAnnotatedMethodBeanPostProcessor.java:154-164 | as `GetQueue`, for the configurer bean |
| HandlerPostProcessor.MergedQueue | spring/src/main/java/com/vladc/sqslistener/MessageListenerAnnotatedMethodBeanPostProcessor.java:92-106 | a complete queue bean is used as is; without one the annotation's values are used; the url lookup and error handler are only resolved when needed |
| HandlerPostProcessor.QueueBeanWins | spring/src/main/java/com/vladc/sqslistener/MessageListenerAnnotatedMethodBeanPostProcessor.java:92-106 | field by field, a value set in the queue bean wins; an unset field takes the annotation's value, the looked-up url or the resolved error handler |
| HandlerPostProcessor.DefaultAnnotationQueue | spring/src/main/java/com/vladc/sqslistener/MessageListenerAnnotatedMethodBeanPostProcessor.java:92-106 | a default annotation without queue name gives url "", batches of 10, 60 s visibility, long polling, auto-acknowledge and the reflective handler |
| HandlerPostProcessor.ListenerQueueFor | spring/src/main/java/com/vladc/sqslistener/MessageListenerAnnotatedMethodBeanPostProcessor.java:90-112 | the queue bean merged with the annotation, then given to the configurer, which has the last word |
| HandlerPostProcessor.TaskExecutorFor | spring/src/main/java/com/vladc/sqslistener/MessageListenerAnnotatedMethodBeanPostProcessor.java:138-152 | no executor for an empty attribute or null bean; another class is an IllegalArgumentException, an uninitialized pool an IllegalStateException |
| HandlerPostProcessor.MessageListenerAnnotatedMethodBeanPostProcessor.constructor | spring/src/main/java/com/vladc/sqslistener/MessageListenerAnnotatedMethodBeanPostProcessor.java:52-57 | stores the manager and client; the standard resolver until a bean factory is set |
| HandlerPostProcessor.MessageListenerAnnotatedMethodBeanPostProcessor.SetBeanFactory | spring/src/main/java/com/vladc/sqslistener/MessageListenerAnnotatedMethodBeanPostProcessor.java:195-202 | only a configurable listable factory gives its resolver |
| HandlerPostProcessor.MessageListenerAnnotatedMethodBeanPostProcessor.ResolveTaskExecutor | spring/src/main/java/com/vladc/sqslistener/MessageListenerAnnotatedMethodBeanPostProcessor.java:138-152 | the listener gets the named pool or keeps its own; a failure leaves it unchanged |
| HandlerPostProcessor.LatestNames | spring/src/main/java/com/vladc/sqslistener/MessageListenerAnnotatedMethodBeanPostProcessor.java:74-75 | the method picked for a queue name is one of the methods walked so far and names that queue |
| HandlerPostProcessor.LatestCovers | spring/src/main/java/com/vladc/sqslistener/MessageListenerAnnotatedMethodBeanPostProcessor.java:74-75 | every method walked so far names a picked queue, at an index no smaller than its own |
| HandlerPostProcessor.LatestIsLast | spring/src/main/java/com/vladc/sqslistener/MessageListenerAnnotatedMethodBeanPostProcessor.java:74-75 | no method after the one picked for a queue names that queue again |
| HandlerPostProcessor.LatestGrows | spring/src/main/java/com/vladc/sqslistener/MessageListenerAnnotatedMethodBeanPostProcessor.java:74-75 | the queue names walked only grow along the walk |
| HandlerPostProcessor.FramedWalk | spring/src/main/java/com/vladc/sqslistener/MessageListenerAnnotatedMethodBeanPostProcessor.java:74-75 | a walk stopped early has removed no registration and changed only names the whole walk could change |
| HandlerPostProcessor.LatestAt | spring/src/main/java/com/vladc/sqslistener/MessageListenerAnnotatedMethodBeanPostProcessor.java:74-75 | a method is the one picked for its queue exactly when no later method names that queue |
| HandlerPostProcessor.MessageListenerAnnotatedMethodBeanPostProcessor.NewListener | spring/src/main/java/com/vladc/sqslistener/MessageListenerAnnotatedMethodBeanPostProcessor.java:108-111 | a fresh, stopped listener of the client without consumers, over the queue, with the annotation's concurrency and the executor it names; it throws exactly when the executor does not resolve |
| HandlerPostProcessor.MessageListenerAnnotatedMethodBeanPostProcessor.ProcessListenerMethods | spring/src/main/java/com/vladc/sqslistener/MessageListenerAnnotatedMethodBeanPostProcessor.java:86-116 | a failure before registration changes nothing; once the queue and executor resolve, the entry under the queue name is replaced by a fresh, stopped listener over the method's queue with the annotation's concurrency and every other entry stays; it succeeds exactly with a context, an unbound name, a positive count and, when no executor is named, a valid pool size, and then the listener has its consumer-loop pool and its task executor |
| HandlerPostProcessor.MessageListenerAnnotatedMethodBeanPostProcessor.HandledStep | spring/src/main/java/com/vladc/sqslistener/MessageListenerAnnotatedMethodBeanPostProcessor.java:112 | registering the listener built for a method makes it the one registered for that method's queue name and keeps the others |
| HandlerPostProcessor.MessageListenerAnnotatedMethodBeanPostProcessor.RegisterFor | spring/src/main/java/com/vladc/sqslistener/MessageListenerAnnotatedMethodBeanPostProcessor.java:74-75 | one method's `processListenerMethods`: the registrations change at most under its queue name, earlier listeners stay as they were, and on success that name holds the listener built for the method |
| HandlerPostProcessor.MessageListenerAnnotatedMethodBeanPostProcessor.ProcessNext | spring/src/main/java/com/vladc/sqslistener/MessageListenerAnnotatedMethodBeanPostProcessor.java:74-75 | one turn of the walk: no entry is removed and only the methods' queue names can change; on success the names walked so far are distinct, were unbound before the walk and are now bound, each to the listener built for its method, with every other entry as before |
| HandlerPostProcessor.MessageListenerAnnotatedMethodBeanPostProcessor.ProcessedByMethod | spring/src/main/java/com/vladc/sqslistener/MessageListenerAnnotatedMethodBeanPostProcessor.java:74-75 | after a walk whose methods all succeeded, every method's queue name is registered, to the listener built for that method unless a later method names the same queue |
| HandlerPostProcessor.FreshStep | spring/src/main/java/com/vladc/sqslistener/MessageListenerAnnotatedMethodBeanPostProcessor.java:74-75 | a method whose queue name is neither bound before nor named by an earlier method keeps the walked names distinct and unbound, and adds its own |
| HandlerPostProcessor.MessageListenerAnnotatedMethodBeanPostProcessor.ProcessedDistinct | spring/src/main/java/com/vladc/sqslistener/MessageListenerAnnotatedMethodBeanPostProcessor.java:74-75 | when the walked names are distinct, each method's queue name holds the listener built for that method |
| HandlerPostProcessor.MessageListenerAnnotatedMethodBeanPostProcessor.ProcessHandlerMethods | spring/src/main/java/com/vladc/sqslistener/MessageListenerAnnotatedMethodBeanPostProcessor.java:74-75 | only the methods' queue names change entries; on success the manager refused no name, so the methods name distinct queues, none bound before, the bound names grow by exactly them, and each holds its method's listener, with every other entry as before |
| HandlerPostProcessor.MessageListenerAnnotatedMethodBeanPostProcessor.PostProcessAfterInitialization | spring/src/main/java/com/vladc/sqslistener/MessageListenerAnnotatedMethodBeanPostProcessor.java:59-84 | skipped beans change nothing; a class without handler methods is cached; otherwise only the methods' queue names change entries, and on success the methods name distinct queues, none bound before, each holding the listener built for its method |

## Left out

- Concurrency is not modelled: threads, `synchronized`, `volatile` and the interleaving of consumers on their pools. A consumer runs one turn at a time, the batch latch is a count of processed messages, and `ConcurrentHashMap` enumeration is an order chosen by `JavaUtil.Enumerate`.
- The success list of a batch is an unsynchronized `ArrayList` that the message tasks append to as they complete. The model runs the tasks in receive order, so the list, and the delete request built from it, follow receive order; other completion orders, and appends lost to concurrent `add` calls, are not modelled.
- Time is not modelled. Sleeps and `awaitTermination` are not executed: the pause is an event, and whether an executor terminated in time is an input to `Terminate`.
- Logging (slf4j) appears only as events where the source's behaviour depends on it: the per-message error log, the replacement warning and the termination warning. Log text is not modelled.
- The consumer id `UUID.randomUUID()` is modelled as a fresh value from a counter. This keeps the one property the code relies on: ids do not collide.
- The AWS SDK calls (`receiveMessage`, `deleteMessageBatch`, `getQueueUrl`) are not executed. Their replies, SDK exceptions included, are inputs to the model.
- Reflection is not modelled. `MethodIntrospector`, `AopUtils.selectInvocableMethod` and `ReflectionUtils.invokeMethod` become inputs: the annotated methods of a bean class are given as a sequence, and what a handler method does is a `HandlerOutcome`.
- Spring expression evaluation is not modelled: `resolveSpEl`, the `BeanExpressionContext` and property placeholders are folded into a `Resolver` function given as a parameter.
- `SqsConfigurer.configure` is not modelled. It is a function parameter that has the last word on the queue.
- `SqsMessageListenerManager.destroy` is not modelled, because it has no effect: it destroys only listeners that are `DisposableBean`s, and `SqsMessageListener` is not one.
- `getOrder` and `isAutoStartup` are not modelled. They return constants and take part in no property.
- The registry's and the manager's `registerSingleton` is modelled only as far as their own registrations go. A clash with a bean name registered by other code is not modelled.
- The three-argument `SqsMessageListener` constructor and `SqsMessageListener.builder()` are not part of this revision of `SqsMessageListener.java`. The builder and the factory call them; they are modelled as the one-argument constructor followed by `setTaskExecutor` and `setQueue`.
- `SqsQueue.builder()` is not part of this revision of `SqsQueue.java`. The `@SqsMessageHandler` post-processor calls it; it is modelled as a queue whose unset fields are null.
- The `queue` attribute of `@SqsMessageHandler` is not declared in this revision of the annotation. It is modelled as an attribute that defaults to "".
- `isLongPolling`, `isAutoAcknowledge` and `getMessageHandler` are not declared in this revision of `SqsQueue.java`, which the `@SqsMessageHandler` post-processor calls. They are modelled as getters of the boxed fields: under `Optional.map` a null field gives `Optional.empty`, and unboxing a null `longPolling` elsewhere throws NullPointerException.
- The `InterruptedException` branches are not modelled, since interrupts need threads.
- The exception a missing queue raises in `getQueueUrl` is an IllegalArgumentException carrying the SDK exception's description. Its message text, which `new IllegalArgumentException(e)` derives from that exception, is not modelled.
- Listener.SqsMessageListener.Terminate: records the shutdown of a supplied executor in the terminated listener only. Whether an executor is shut down is held per listener, not per `ExecutorService`. Several listeners can share one supplied pool: the factory's message-processor executor, or a named `executor` bean. In Java, destroying one of them shuts the pool down for all, and the others' submits are then rejected. In the model the other listeners' executors still accept work. The same holds for `Listener.SqsMessageListener.Destroy`, and for the manager's `stop`, which calls it.
- JavaText.ParseInt: accepts only ASCII digits. Java's `Character.digit` also accepts the other Unicode decimal digits, which the model does not have.
- ListenerPostProcessor.MessageListenerAnnotatedMethodBeanPostProcessor.ProcessMethodLevelListener: does not state that the listeners it registers are new objects. Each listener is made by `CreateListener`, which does state it; the walk states only which listener each id holds.
- ListenerPostProcessor.MessageListenerAnnotatedMethodBeanPostProcessor.PostProcessAfterInitialization: does not state that the listeners it registers are new objects, for the same reason.
- HandlerPostProcessor.MessageListenerAnnotatedMethodBeanPostProcessor.ProcessHandlerMethods: does not state that the listeners it registers are new objects. `ProcessListenerMethods` states it for each one; the walk states which listener each queue name holds.
