/**
 * The `@SqsMessageHandler` bean post-processor. Each annotated method of a
 * bean becomes a listener registered with the listener manager under the
 * annotation's queue name. The listener's queue merges an `SqsQueue` bean
 * named by the annotation with the annotation's own attributes (the bean
 * wins, field by field), and an `SqsConfigurer` bean may then change it.
 */
module HandlerPostProcessor {
  import opened JavaLang
  import opened SqsTypes
  import opened Annotations
  import opened SpringBeans
  import opened Queue
  import opened Listener
  import opened Manager

  const QUEUE_BEAN_FAILED: string := "Failed to register SqsQueue bean"
  const ONLY_THREAD_POOL: string :=
    "Only instances of ThreadPoolTaskExecutor are supported by @SqsMessageHandler#executor"

  /**
   * What `sqsClient.getQueueUrl` answers for a queue name: the url, a
   * QueueDoesNotExistException (with its description), or another failure of
   * the SDK, which escapes.
   */
  datatype QueueUrlLookup = QueueUrl(url: string) | QueueDoesNotExist(description: string) | LookupFailed

  /** The SQS service as the client sees it: the answer to `getQueueUrl` for each queue name. */
  type QueueDirectory = string -> QueueUrlLookup

  /** `SqsConfigurer.configure`: what a configurer bean does to the queue being built. */
  type Configure = (ConfigurerRef, SqsQueue) -> SqsQueue

  /** A queue builder on which nothing was set. */
  const EMPTY_QUEUE: SqsQueue := SqsQueue(None, None, None, None, None, None, None, None, None)

  /**
   * `getQueueUrl`: an empty queue name is the empty url, without asking the
   * client; otherwise the client's answer, a missing queue being an
   * IllegalArgumentException that carries the SDK's exception.
   */
  function GetQueueUrl(sqsClient: Option<ClientRef>, directory: QueueDirectory, queueName: string): (r: Result<string>)
    ensures queueName == "" ==> r == Success("")
    ensures queueName != "" && sqsClient.None? ==> r == Failure(NullPointer)
    ensures queueName != "" && sqsClient.Some? ==>
              match directory(queueName)
              case QueueUrl(u) => r == Success(u)
              case QueueDoesNotExist(d) => r == Failure(IllegalArgument(d))
              case LookupFailed => r == Failure(SdkFailure)
  {
    if queueName == "" then Success("")
    else if sqsClient.None? then Failure(NullPointer)
    else
      match directory(queueName)
      case QueueUrl(u) => Success(u)
      case QueueDoesNotExist(d) => Failure(IllegalArgument(d))
      case LookupFailed => Failure(SdkFailure)
  }

  /**
   * `getQueue`: an empty `queue` attribute names no bean; otherwise the
   * expression's value cast to `SqsQueue` (null is no bean), a failed
   * evaluation being an IllegalStateException.
   */
  function GetQueue(resolver: Resolver, queue: string): (r: Result<Option<SqsQueue>>)
    ensures queue == "" ==> r == Success(None)
    ensures queue != "" ==>
              match resolver(queue)
              case BeansException => r == Failure(IllegalState(QUEUE_BEAN_FAILED))
              case Evaluated(v) => r == CastToQueue(v)
  {
    if queue == "" then Success(None)
    else
      match resolver(queue)
      case BeansException => Failure(IllegalState(QUEUE_BEAN_FAILED))
      case Evaluated(v) => CastToQueue(v)
  }

  /** `getConfigurer`: as `getQueue`, for an `SqsConfigurer` bean named by the `config` attribute. */
  function GetConfigurer(resolver: Resolver, config: string): (r: Result<Option<ConfigurerRef>>)
    ensures config == "" ==> r == Success(None)
    ensures config != "" ==>
              match resolver(config)
              case BeansException => r == Failure(IllegalState(QUEUE_BEAN_FAILED))
              case Evaluated(v) => r == CastToConfigurer(v)
  {
    if config == "" then Success(None)
    else
      match resolver(config)
      case BeansException => Failure(IllegalState(QUEUE_BEAN_FAILED))
      case Evaluated(v) => CastToConfigurer(v)
  }

  /** Whether the queue bean sets every field the merge reads. */
  predicate Complete(q: SqsQueue) {
    && q.url.Some? && q.maxBatchSize.Some? && q.visibilityTimeoutSeconds.Some? && q.handler.Some?
    && q.errorHandler.Some? && q.longPolling.Some? && q.autoAcknowledge.Some?
  }

  /**
   * The queue `processListenerMethods` builds before the configurer runs: each
   * field is the queue bean's when there is a bean and its field is not null,
   * and the annotation's otherwise. The url lookup and the error-handler bean
   * are only resolved when the annotation's value is needed; concurrency and
   * interceptors are never set.
   */
  function MergedQueue(queueOpt: Option<SqsQueue>, a: SqsMessageHandlerAnnotation, reflective: MessageHandler,
                       sqsClient: Option<ClientRef>, directory: QueueDirectory, resolver: Resolver): (r: Result<SqsQueue>)
    ensures queueOpt.Some? && Complete(queueOpt.value) ==>
              r == Success(queueOpt.value.(concurrency := None, interceptors := None))
    ensures queueOpt.None? ==>
              match (GetQueueUrl(sqsClient, directory, a.queueName), GetErrorHandler(resolver, a.exceptionHandler))
              case (Success(url), Success(h)) =>
                r == Success(SqsQueue(Some(url), Some(a.maxBatchSize), Some(a.visibilityTimeout), Some(reflective), h,
                                      Some(a.pollMode == Long), Some(a.ackMode == Auto), None, None))
              case (Failure(e), _) => r == Failure(e)
              case (Success(_), Failure(e)) => r == Failure(e)
    ensures r.Success? ==> r.value.concurrency == None && r.value.interceptors == None && r.value.url.Some?
    ensures queueOpt.Some? && queueOpt.value.url.Some? && r.Failure? ==> r == Failure(IllegalState(ERROR_HANDLER_FAILED))
  {
    var q := queueOpt.GetOr(EMPTY_QUEUE);
    var url :- if q.url.Some? then Success(q.url.value) else GetQueueUrl(sqsClient, directory, a.queueName);
    var errorHandler :- if q.errorHandler.Some? then Success(q.errorHandler) else GetErrorHandler(resolver, a.exceptionHandler);
    Success(SqsQueue(
      Some(url),
      Some(q.maxBatchSize.GetOr(a.maxBatchSize)),
      Some(q.visibilityTimeoutSeconds.GetOr(a.visibilityTimeout)),
      Some(q.handler.GetOr(reflective)),
      errorHandler,
      Some(q.longPolling.GetOr(a.pollMode == Long)),
      Some(q.autoAcknowledge.GetOr(a.ackMode == Auto)),
      None,
      None))
  }

  /** Field by field, a value set in the queue bean wins over the annotation's. */
  lemma QueueBeanWins(q: SqsQueue, a: SqsMessageHandlerAnnotation, reflective: MessageHandler,
                      sqsClient: Option<ClientRef>, directory: QueueDirectory, resolver: Resolver)
    requires MergedQueue(Some(q), a, reflective, sqsClient, directory, resolver).Success?
    ensures var m := MergedQueue(Some(q), a, reflective, sqsClient, directory, resolver).value;
      && (q.url.Some? ==> m.url == q.url)
      && (q.maxBatchSize.Some? ==> m.maxBatchSize == q.maxBatchSize)
      && (q.visibilityTimeoutSeconds.Some? ==> m.visibilityTimeoutSeconds == q.visibilityTimeoutSeconds)
      && (q.handler.Some? ==> m.handler == q.handler)
      && (q.errorHandler.Some? ==> m.errorHandler == q.errorHandler)
      && (q.longPolling.Some? ==> m.longPolling == q.longPolling)
      && (q.autoAcknowledge.Some? ==> m.autoAcknowledge == q.autoAcknowledge)
      && (q.maxBatchSize.None? ==> m.maxBatchSize == Some(a.maxBatchSize))
      && (q.visibilityTimeoutSeconds.None? ==> m.visibilityTimeoutSeconds == Some(a.visibilityTimeout))
      && (q.handler.None? ==> m.handler == Some(reflective))
      && (q.longPolling.None? ==> (m.longPolling == Some(true) <==> a.pollMode == Long))
      && (q.autoAcknowledge.None? ==> (m.autoAcknowledge == Some(true) <==> a.ackMode == Auto))
      && (q.url.None? ==> GetQueueUrl(sqsClient, directory, a.queueName).Success? &&
                          m.url == Some(GetQueueUrl(sqsClient, directory, a.queueName).value))
      && (q.errorHandler.None? ==> GetErrorHandler(resolver, a.exceptionHandler).Success? &&
                                   m.errorHandler == GetErrorHandler(resolver, a.exceptionHandler).value)
  {
  }

  /**
   * Without a queue bean, an `@SqsMessageHandler` with default attributes and
   * an empty queue name listens on the url "" in batches of 10, with 60 seconds
   * of visibility, long polling, auto-acknowledge and the reflective handler.
   */
  lemma DefaultAnnotationQueue(reflective: MessageHandler, sqsClient: Option<ClientRef>, directory: QueueDirectory, resolver: Resolver)
    ensures MergedQueue(None, DEFAULT_SQS_MESSAGE_HANDLER, reflective, sqsClient, directory, resolver)
            == Success(SqsQueue(Some(""), Some(10), Some(60), Some(reflective), None, Some(true), Some(true), None, None))
  {
  }

  /**
   * The queue a handler method's listener consumes: the queue bean (if any),
   * merged with the annotation, then handed to the configurer (if any), so that
   * what the configurer sets wins.
   */
  function ListenerQueueFor(a: SqsMessageHandlerAnnotation, reflective: MessageHandler, sqsClient: Option<ClientRef>,
                            directory: QueueDirectory, resolver: Resolver, configure: Configure): (r: Result<SqsQueue>)
    ensures r.Success? <==>
              && GetQueue(resolver, a.queue).Success?
              && MergedQueue(GetQueue(resolver, a.queue).value, a, reflective, sqsClient, directory, resolver).Success?
              && GetConfigurer(resolver, a.config).Success?
    ensures r.Success? ==>
              var merged := MergedQueue(GetQueue(resolver, a.queue).value, a, reflective, sqsClient, directory, resolver).value;
              match GetConfigurer(resolver, a.config).value
              case None => r.value == merged
              case Some(c) => r.value == configure(c, merged)
    ensures GetQueue(resolver, a.queue).Failure? ==> r == Failure(GetQueue(resolver, a.queue).error)
  {
    var queueOpt :- GetQueue(resolver, a.queue);
    var merged :- MergedQueue(queueOpt, a, reflective, sqsClient, directory, resolver);
    var configurer :- GetConfigurer(resolver, a.config);
    match configurer
    case None => Success(merged)
    case Some(c) => Success(configure(c, merged))
  }

  /**
   * `resolveTaskExecutor`, as the executor it hands the listener: none for an
   * empty attribute or a null bean (the listener keeps its own); a bean of
   * another class than `ThreadPoolTaskExecutor` is an IllegalArgumentException,
   * and an uninitialized one an IllegalStateException.
   */
  function TaskExecutorFor(resolver: Resolver, executor: string): (r: Result<Option<ExecutorRef>>)
    ensures executor == "" ==> r == Success(None)
    ensures r.Success? && r.value.Some? ==>
              resolver(executor) == Evaluated(TaskExecutorValue(PoolTaskExecutor(TaskExecutorBean(r.value))))
    ensures executor != "" ==>
              && (resolver(executor) == BeansException ==> r == Failure(ExpressionFailure))
              && (resolver(executor) == Evaluated(NullValue) ==> r == Success(None))
              && (forall ref :: resolver(executor) == Evaluated(TaskExecutorValue(OtherTaskExecutor(ref))) ==>
                    r == Failure(IllegalArgument(ONLY_THREAD_POOL)))
              && (resolver(executor) == Evaluated(TaskExecutorValue(PoolTaskExecutor(TaskExecutorBean(None)))) ==>
                    r == Failure(IllegalState(NOT_INITIALIZED)))
  {
    if executor == "" then Success(None)
    else
      var value :- Evaluate(resolver, executor);
      var taskExecutor :- CastToTaskExecutor(value);
      match taskExecutor
      case None => Success(None)
      case Some(OtherTaskExecutor(_)) => Failure(IllegalArgument(ONLY_THREAD_POOL))
      case Some(PoolTaskExecutor(bean)) =>
        var pool :- ThreadPoolExecutorOf(bean);
        Success(Some(pool))
  }

  /**
   * `l` is the listener `processListenerMethods` made for the annotation `a`
   * once the manager initialized it: a stopped listener of `client` without
   * consumers over `queue`, with `a.concurrency` consumers to schedule, a fixed
   * pool of that many consumer-loop threads, and as task executor the one the
   * annotation names or else the default pool.
   */
  ghost predicate MadeFor(l: SqsMessageListener, client: Option<ClientRef>, a: SqsMessageHandlerAnnotation,
                          queue: Result<SqsQueue>, executor: Result<Option<ExecutorRef>>)
    reads l
  {
    && queue.Success? && executor.Success?
    && l.Valid() && l.sqsClient == client && !l.isRunning && l.consumerMap == map[]
    && l.queue == Some(queue.value) && l.consumerCount == a.concurrency
    && l.consumerLoopExecutor == Some(Executor(FixedThreadPool(a.concurrency, CONSUMER_LOOP_THREAD_PREFIX), false))
    && (l.taskExecutor, Done) == InitialTaskExecutor(SqsMessageListener.SuppliedExecutor(executor.value), l.queue, a.concurrency)
  }

  /**
   * For the first `n` annotated methods, the index of the last one naming each
   * queue: every method replaces the listener registered under its queue name,
   * so the last one naming it is the one whose listener stays.
   */
  function Latest(methods: seq<Annotated<SqsMessageHandlerAnnotation>>, n: nat): (r: map<string, nat>)
    requires n <= |methods|
  {
    if n == 0 then map[] else Latest(methods, n - 1)[methods[n - 1].annotation.queueName := n - 1]
  }

  /** `Latest` picks, for each queue name, one of the first `n` methods naming it. */
  lemma {:induction false} LatestNames(methods: seq<Annotated<SqsMessageHandlerAnnotation>>, n: nat)
    requires n <= |methods|
    ensures forall name :: name in Latest(methods, n) ==>
              Latest(methods, n)[name] < n && methods[Latest(methods, n)[name]].annotation.queueName == name
  {
    if n > 0 {
      LatestNames(methods, n - 1);
    }
  }

  /** Every one of the first `n` methods names a queue of `Latest`, at an index no smaller than its own. */
  lemma {:induction false} LatestCovers(methods: seq<Annotated<SqsMessageHandlerAnnotation>>, n: nat)
    requires n <= |methods|
    ensures forall j :: 0 <= j < n ==>
              methods[j].annotation.queueName in Latest(methods, n) && j <= Latest(methods, n)[methods[j].annotation.queueName]
  {
    if n > 0 {
      LatestCovers(methods, n - 1);
      var previous, latest := Latest(methods, n - 1), Latest(methods, n);
      forall j | 0 <= j < n
        ensures methods[j].annotation.queueName in latest && j <= latest[methods[j].annotation.queueName]
      {
        if j < n - 1 && methods[j].annotation.queueName != methods[n - 1].annotation.queueName {
          assert latest[methods[j].annotation.queueName] == previous[methods[j].annotation.queueName];
        }
      }
    }
  }

  /** No method after the one `Latest` picks for a queue names that queue again: the last one wins. */
  lemma {:induction false} LatestIsLast(methods: seq<Annotated<SqsMessageHandlerAnnotation>>, n: nat)
    requires n <= |methods|
    ensures forall name, k :: name in Latest(methods, n) && Latest(methods, n)[name] < k < n ==>
              methods[k].annotation.queueName != name
  {
    if n > 0 {
      LatestIsLast(methods, n - 1);
      var previous, latest := Latest(methods, n - 1), Latest(methods, n);
      forall name, k | name in latest && latest[name] < k < n
        ensures methods[k].annotation.queueName != name
      {
        if name != methods[n - 1].annotation.queueName {
          assert name in previous && latest[name] == previous[name];
        }
      }
    }
  }

  /** The queue names of the first `n` methods are among those of the first `m`. */
  lemma {:induction false} LatestGrows(methods: seq<Annotated<SqsMessageHandlerAnnotation>>, n: nat, m: nat)
    requires n <= m <= |methods|
    ensures Latest(methods, n).Keys <= Latest(methods, m).Keys
  {
    if n < m {
      LatestGrows(methods, n, m - 1);
    }
  }

  /**
   * Against the registrations `before`, the registrations `after` add a
   * listener under at most the queue names `names`, and keep the old listener
   * under every other name.
   */
  ghost predicate Framed<L>(before: map<string, L>, after: map<string, L>, names: set<string>)
  {
    && before.Keys <= after.Keys <= before.Keys + names
    && forall k :: k in before && k !in names ==> after[k] == before[k]
  }

  /** Registering one more listener, under `name`, stays within the names of `latest` and `name`. */
  lemma FramedStep<L>(before: map<string, L>, previous: map<string, L>, after: map<string, L>,
                      latest: map<string, nat>, name: string, i: nat)
    requires Framed(before, previous, latest.Keys)
    requires after == previous || (name in after && after == previous[name := after[name]])
    ensures Framed(before, after, latest[name := i].Keys)
  {
    assert latest[name := i].Keys == latest.Keys + {name};
  }

  /** Registering under `name` adds exactly that name to the registered ones. */
  lemma KeysStep<L>(before: map<string, L>, previous: map<string, L>, after: map<string, L>,
                    latest: map<string, nat>, name: string, i: nat)
    requires previous.Keys == before.Keys + latest.Keys
    requires name in after && after == previous[name := after[name]]
    ensures after.Keys == before.Keys + latest[name := i].Keys
  {
    assert latest[name := i].Keys == latest.Keys + {name};
    assert after.Keys == previous.Keys + {name};
  }

  /** No method after the `j`-th names its queue again. */
  predicate LastNaming(methods: seq<Annotated<SqsMessageHandlerAnnotation>>, j: nat)
    requires j < |methods|
  {
    forall k :: j < k < |methods| ==> methods[k].annotation.queueName != methods[j].annotation.queueName
  }

  /** No two of the first `n` methods name the same queue, and none names a queue in `taken`. */
  ghost predicate FreshNames(methods: seq<Annotated<SqsMessageHandlerAnnotation>>, n: nat, taken: set<string>)
    requires n <= |methods|
  {
    && (forall j :: 0 <= j < n ==> methods[j].annotation.queueName !in taken)
    && (forall j, k :: 0 <= j < k < n ==> methods[j].annotation.queueName != methods[k].annotation.queueName)
  }

  /**
   * A method whose queue name is neither taken nor named by an earlier method
   * keeps the names fresh, and adds its name to those walked.
   */
  lemma FreshStep(methods: seq<Annotated<SqsMessageHandlerAnnotation>>, i: nat, taken: set<string>)
    requires i < |methods| && FreshNames(methods, i, taken)
    requires methods[i].annotation.queueName !in taken + Latest(methods, i).Keys
    ensures FreshNames(methods, i + 1, taken)
    ensures taken + Latest(methods, i + 1).Keys == taken + Latest(methods, i).Keys + {methods[i].annotation.queueName}
  {
    LatestCovers(methods, i);
    assert Latest(methods, i + 1) == Latest(methods, i)[methods[i].annotation.queueName := i];
  }

  /** `Latest` picks exactly the methods no later method overrides. */
  lemma LatestAt(methods: seq<Annotated<SqsMessageHandlerAnnotation>>, j: nat)
    requires j < |methods|
    ensures methods[j].annotation.queueName in Latest(methods, |methods|)
    ensures LastNaming(methods, j) <==> Latest(methods, |methods|)[methods[j].annotation.queueName] == j
  {
    var latest, name := Latest(methods, |methods|), methods[j].annotation.queueName;
    LatestCovers(methods, |methods|);
    LatestNames(methods, |methods|);
    LatestIsLast(methods, |methods|);
    if LastNaming(methods, j) {
      var k := latest[name];
      assert methods[k].annotation.queueName == name;
    }
  }

  /** `Framed` holds for any larger set of names. */
  lemma FramedGrows<L>(before: map<string, L>, after: map<string, L>, names: set<string>, more: set<string>)
    requires Framed(before, after, names) && names <= more
    ensures Framed(before, after, more)
  {
  }

  /** A walk stopped after `n` methods has touched only names the whole walk may touch, and removed none. */
  lemma FramedWalk<L>(before: map<string, L>, after: map<string, L>, methods: seq<Annotated<SqsMessageHandlerAnnotation>>, n: nat)
    requires n <= |methods| && Framed(before, after, Latest(methods, n).Keys)
    ensures before.Keys <= after.Keys && Framed(before, after, Latest(methods, |methods|).Keys)
  {
    LatestGrows(methods, n, |methods|);
    FramedGrows(before, after, Latest(methods, n).Keys, Latest(methods, |methods|).Keys);
  }

  /** Whether `postProcessAfterInitialization` looks into the bean's class. */
  predicate Inspected(bean: Bean, nonAnnotated: set<ClassRef>) {
    !bean.aopInfrastructure && bean.targetClass.ref !in nonAnnotated && bean.targetClass.candidate
  }

  class MessageListenerAnnotatedMethodBeanPostProcessor {
    const sqsMessageListenerManager: SqsMessageListenerManager
    const sqsClient: Option<ClientRef>
    /** The answers the SQS service gives to `getQueueUrl`. */
    const directory: QueueDirectory
    /** What each `SqsConfigurer` bean does to a queue. */
    const configure: Configure
    /** `AopUtils.selectInvocableMethod`. */
    const selectInvocable: InvocableSelector
    /** The classes found to carry no `@SqsMessageHandler` method, never inspected again. */
    var nonAnnotatedClasses: set<ClassRef>
    var resolver: Resolver

    ghost predicate Valid()
      reads this, sqsMessageListenerManager, sqsMessageListenerManager.listeners.Values
    {
      sqsMessageListenerManager.Valid()
    }

    /** A new post-processor; until a bean factory is set, expressions go to a `StandardBeanExpressionResolver`. */
    constructor (manager: SqsMessageListenerManager, client: Option<ClientRef>, sqs: QueueDirectory,
                 configurers: Configure, standardResolver: Resolver, select: InvocableSelector)
      ensures sqsMessageListenerManager == manager && sqsClient == client && directory == sqs
      ensures configure == configurers && selectInvocable == select
      ensures nonAnnotatedClasses == {} && resolver == standardResolver
    {
      sqsMessageListenerManager, sqsClient, directory := manager, client, sqs;
      configure, selectInvocable := configurers, select;
      nonAnnotatedClasses, resolver := {}, standardResolver;
    }

    /** `setBeanFactory`: only a `ConfigurableListableBeanFactory` gives its expression resolver. */
    method SetBeanFactory(factory: BeanFactoryObject)
      modifies this`resolver
      ensures resolver == if factory.ConfigurableListable? then factory.factory.expressionResolver else old(resolver)
    {
      if factory.ConfigurableListable? {
        resolver := factory.factory.expressionResolver;
      }
    }

    /** The queue of the listener made for `handlerMethod` of `bean`. */
    function QueueFor(a: SqsMessageHandlerAnnotation, handlerMethod: MethodRef, bean: Bean): Result<SqsQueue>
      reads this
    {
      ListenerQueueFor(a, ReflectiveHandler(selectInvocable(handlerMethod, bean.runtimeClass), bean.ref),
                       sqsClient, directory, resolver, configure)
    }

    /**
     * `resolveTaskExecutor`: the listener gets the executor the attribute names,
     * or keeps its own.
     */
    method ResolveTaskExecutor(a: SqsMessageHandlerAnnotation, listener: SqsMessageListener) returns (o: Outcome)
      modifies listener
      ensures TaskExecutorFor(resolver, a.executor).Failure? ==>
                o == Threw(TaskExecutorFor(resolver, a.executor).error) && unchanged(listener)
      ensures TaskExecutorFor(resolver, a.executor) == Success(None) ==> o == Done && unchanged(listener)
      ensures TaskExecutorFor(resolver, a.executor).Success? && TaskExecutorFor(resolver, a.executor).value.Some? ==>
                && o == Done
                && listener.State() == old(listener.State()).(taskExecutor := SqsMessageListener.SuppliedExecutor(TaskExecutorFor(resolver, a.executor).value))
                && listener.consumerMap == old(listener.consumerMap) && listener.nextSerial == old(listener.nextSerial)
    {
      var executor := TaskExecutorFor(resolver, a.executor);
      if executor.Failure? {
        return Threw(executor.error);
      }
      o := Done;
      if executor.value.Some? {
        listener.SetTaskExecutor(executor.value);
      }
    }

    /**
     * The listener `processListenerMethods` builds before registering it: a new
     * listener of the post-processor's client over `queue`, with the
     * annotation's consumer count and the executor it names, if any.
     */
    method NewListener(a: SqsMessageHandlerAnnotation, queue: SqsQueue) returns (listener: SqsMessageListener, o: Outcome)
      ensures fresh(listener) && listener.Valid() && listener.sqsClient == sqsClient && listener.consumerMap == map[]
      ensures o.Threw? <==> TaskExecutorFor(resolver, a.executor).Failure?
      ensures o.Threw? ==> o == Threw(TaskExecutorFor(resolver, a.executor).error)
      ensures o == Done ==>
                listener.State() == Config(Some(queue), SqsMessageListener.SuppliedExecutor(TaskExecutorFor(resolver, a.executor).value),
                                           None, a.concurrency, false)
    {
      listener := new SqsMessageListener(sqsClient);
      listener.SetQueue(Some(queue));
      var _, _ := listener.SetConsumerCount(a.concurrency);
      o := ResolveTaskExecutor(a, listener);
    }

    /**
     * `processListenerMethods`: a new listener of the post-processor's client
     * over the method's queue, with the annotation's consumer count and executor,
     * registered with the manager under the annotation's queue name. Once the
     * queue and the executor resolve, the entry under that name is replaced by
     * the new listener whatever the registration's outcome, and every other
     * entry stays; the registration fails without a context, for a name already
     * bound or for a count that is not positive.
     */
    method ProcessListenerMethods(a: SqsMessageHandlerAnnotation, handlerMethod: MethodRef, bean: Bean) returns (o: Outcome)
      requires Valid()
      modifies sqsMessageListenerManager
      ensures Valid()
      ensures sqsMessageListenerManager.applicationContext == old(sqsMessageListenerManager.applicationContext)
      ensures sqsMessageListenerManager.contextRefreshed == old(sqsMessageListenerManager.contextRefreshed)
      ensures old(sqsMessageListenerManager.listeners.Keys) <= sqsMessageListenerManager.listeners.Keys
      ensures sqsMessageListenerManager.listeners.Keys <= old(sqsMessageListenerManager.listeners.Keys) + {a.queueName}
      ensures QueueFor(a, handlerMethod, bean).Failure? ==>
                o == Threw(QueueFor(a, handlerMethod, bean).error) && unchanged(sqsMessageListenerManager)
      ensures QueueFor(a, handlerMethod, bean).Success? && TaskExecutorFor(resolver, a.executor).Failure? ==>
                o == Threw(TaskExecutorFor(resolver, a.executor).error) && unchanged(sqsMessageListenerManager)
      ensures o == Done ==>
                && QueueFor(a, handlerMethod, bean).Success?
                && a.queueName in sqsMessageListenerManager.listeners
                && var listener := sqsMessageListenerManager.listeners[a.queueName];
                && fresh(listener) && listener.sqsClient == sqsClient
                && listener.queue == Some(QueueFor(a, handlerMethod, bean).value)
                && listener.consumerCount == a.concurrency && !listener.isRunning
      ensures QueueFor(a, handlerMethod, bean).Success? && TaskExecutorFor(resolver, a.executor).Success? ==>
                && a.queueName in sqsMessageListenerManager.listeners
                && var listener := sqsMessageListenerManager.listeners[a.queueName];
                && sqsMessageListenerManager.listeners == old(sqsMessageListenerManager.listeners)[a.queueName := listener]
                && fresh(listener) && listener.sqsClient == sqsClient && !listener.isRunning && listener.consumerMap == map[]
                && listener.queue == Some(QueueFor(a, handlerMethod, bean).value) && listener.consumerCount == a.concurrency
                && (o == Done <==>
                      && sqsMessageListenerManager.applicationContext.Some?
                      && a.queueName !in old(sqsMessageListenerManager.bound)
                      && a.concurrency > 0
                      && InitialTaskExecutor(SqsMessageListener.SuppliedExecutor(TaskExecutorFor(resolver, a.executor).value),
                                             listener.queue, a.concurrency).1 == Done)
      ensures o == Done ==>
                && a.queueName !in old(sqsMessageListenerManager.bound)
                && sqsMessageListenerManager.bound == old(sqsMessageListenerManager.bound) + {a.queueName}
                && MadeFor(sqsMessageListenerManager.listeners[a.queueName], sqsClient, a,
                           QueueFor(a, handlerMethod, bean), TaskExecutorFor(resolver, a.executor))
    {
      var queue := QueueFor(a, handlerMethod, bean);
      if queue.Failure? {
        return Threw(queue.error);
      }
      var listener;
      listener, o := NewListener(a, queue.value);
      if o.Threw? {
        return;
      }
      o := sqsMessageListenerManager.RegisterListener(a.queueName, listener);
    }

    /**
     * `postProcessAfterInitialization`: AOP infrastructure, classes already known
     * to carry no `@SqsMessageHandler` method and classes that cannot carry it
     * are passed over; a class without such methods is remembered; otherwise each
     * method, in the introspector's order, gets its listener, until an exception
     * ends the walk. Only the queue names of the class's methods change entries.
     * The manager refuses a bound name, so on success the methods name distinct
     * queues, none bound before, and each name holds its method's listener.
     */
    method PostProcessAfterInitialization(bean: Bean) returns (o: Outcome)
      requires Valid()
      modifies this`nonAnnotatedClasses, sqsMessageListenerManager
      ensures Valid()
      ensures !Inspected(bean, old(nonAnnotatedClasses)) ==>
                o == Done && nonAnnotatedClasses == old(nonAnnotatedClasses) && unchanged(sqsMessageListenerManager)
      ensures Inspected(bean, old(nonAnnotatedClasses)) ==>
                nonAnnotatedClasses == old(nonAnnotatedClasses) +
                  (if |bean.targetClass.messageHandlerMethods| == 0 then {bean.targetClass.ref} else {})
      ensures o == Done && Inspected(bean, old(nonAnnotatedClasses)) ==>
                forall i :: 0 <= i < |bean.targetClass.messageHandlerMethods| ==>
                  bean.targetClass.messageHandlerMethods[i].annotation.queueName in sqsMessageListenerManager.listeners
      ensures Inspected(bean, old(nonAnnotatedClasses)) ==>
                Framed(old(sqsMessageListenerManager.listeners), sqsMessageListenerManager.listeners,
                       Latest(bean.targetClass.messageHandlerMethods, |bean.targetClass.messageHandlerMethods|).Keys)
      ensures o == Done && Inspected(bean, old(nonAnnotatedClasses)) ==>
                Processed(old(sqsMessageListenerManager.listeners), sqsMessageListenerManager.listeners,
                          Latest(bean.targetClass.messageHandlerMethods, |bean.targetClass.messageHandlerMethods|),
                          bean.targetClass.messageHandlerMethods, bean)
      ensures o == Done && Inspected(bean, old(nonAnnotatedClasses)) ==>
                FreshNames(bean.targetClass.messageHandlerMethods, |bean.targetClass.messageHandlerMethods|,
                           old(sqsMessageListenerManager.bound))
    {
      o := Done;
      if bean.aopInfrastructure {
        return;
      }
      var targetClass := bean.targetClass;
      if targetClass.ref in nonAnnotatedClasses || !targetClass.candidate {
        return;
      }
      var annotatedMethods := targetClass.messageHandlerMethods;
      if |annotatedMethods| == 0 {
        nonAnnotatedClasses := nonAnnotatedClasses + {targetClass.ref};
        return;
      }
      o := ProcessHandlerMethods(annotatedMethods, bean);
    }

    /** `l` is the listener `processListenerMethods` registers, on success, for the method `m` of `bean`. */
    ghost predicate Handles(l: SqsMessageListener, m: Annotated<SqsMessageHandlerAnnotation>, bean: Bean)
      reads this, l
    {
      MadeFor(l, sqsClient, m.annotation, QueueFor(m.annotation, m.handlerMethod, bean), TaskExecutorFor(resolver, m.annotation.executor))
    }

    /**
     * Under each queue name of `latest`, `listeners` holds the listener built
     * for the method `latest` picks for that name.
     */
    ghost predicate HandledAll(listeners: map<string, SqsMessageListener>, latest: map<string, nat>,
                               methods: seq<Annotated<SqsMessageHandlerAnnotation>>, bean: Bean)
      reads this, listeners.Values
    {
      forall name :: name in latest && name in listeners && latest[name] < |methods| ==>
        Handles(listeners[name], methods[latest[name]], bean)
    }

    /** Registering the listener built for the `i`-th method makes it the one for its queue name. */
    lemma HandledStep(listeners: map<string, SqsMessageListener>, latest: map<string, nat>,
                      methods: seq<Annotated<SqsMessageHandlerAnnotation>>, i: nat, bean: Bean, l: SqsMessageListener)
      requires i < |methods| && HandledAll(listeners, latest, methods, bean) && Handles(l, methods[i], bean)
      ensures HandledAll(listeners[methods[i].annotation.queueName := l], latest[methods[i].annotation.queueName := i], methods, bean)
    {
      var name, after := methods[i].annotation.queueName, listeners[methods[i].annotation.queueName := l];
      forall other | other in latest && other in after && latest[other] < |methods| && other != name
        ensures Handles(after[other], methods[latest[other]], bean)
      {
        assert after[other] == listeners[other];
      }
    }

    /**
     * From the registrations `before`, every method `latest` picks succeeded:
     * the registrations `listeners` hold, under each queue name of `latest`, the
     * listener built for the method it picks, and the registrations `before`
     * under every other name.
     */
    ghost predicate Processed(before: map<string, SqsMessageListener>, listeners: map<string, SqsMessageListener>,
                              latest: map<string, nat>, methods: seq<Annotated<SqsMessageHandlerAnnotation>>, bean: Bean)
      reads this, listeners.Values
    {
      && Framed(before, listeners, latest.Keys)
      && listeners.Keys == before.Keys + latest.Keys
      && HandledAll(listeners, latest, methods, bean)
    }

    /**
     * `processListenerMethods` for the `i`-th annotated method, seen from the
     * loop: the manager's registrations gain at most the entry under the
     * method's queue name, the listeners registered before are left as they
     * were, and on success that entry is the listener built for the method.
     */
    method RegisterFor(methods: seq<Annotated<SqsMessageHandlerAnnotation>>, i: nat, bean: Bean, ghost latest: map<string, nat>)
      returns (o: Outcome)
      requires Valid() && i < |methods| && HandledAll(sqsMessageListenerManager.listeners, latest, methods, bean)
      modifies sqsMessageListenerManager
      ensures Valid()
      ensures HandledAll(old(sqsMessageListenerManager.listeners), latest, methods, bean)
      ensures var name := methods[i].annotation.queueName;
              || sqsMessageListenerManager.listeners == old(sqsMessageListenerManager.listeners)
              || (&& name in sqsMessageListenerManager.listeners
                  && sqsMessageListenerManager.listeners == old(sqsMessageListenerManager.listeners)[name := sqsMessageListenerManager.listeners[name]])
      ensures o == Done ==>
                var name := methods[i].annotation.queueName;
                && name in sqsMessageListenerManager.listeners
                && sqsMessageListenerManager.listeners == old(sqsMessageListenerManager.listeners)[name := sqsMessageListenerManager.listeners[name]]
                && Handles(sqsMessageListenerManager.listeners[name], methods[i], bean)
      ensures o == Done ==>
                && methods[i].annotation.queueName !in old(sqsMessageListenerManager.bound)
                && sqsMessageListenerManager.bound == old(sqsMessageListenerManager.bound) + {methods[i].annotation.queueName}
    {
      o := ProcessListenerMethods(methods[i].annotation, methods[i].handlerMethod, bean);
    }

    /**
     * After every method succeeded, each method's queue name is registered,
     * and to the listener built for that method unless a later method names
     * the same queue (which a walk that succeeds rules out, as
     * `ProcessedDistinct` uses).
     */
    lemma ProcessedByMethod(before: map<string, SqsMessageListener>, listeners: map<string, SqsMessageListener>,
                            methods: seq<Annotated<SqsMessageHandlerAnnotation>>, bean: Bean, j: nat)
      requires j < |methods| && Processed(before, listeners, Latest(methods, |methods|), methods, bean)
      ensures methods[j].annotation.queueName in listeners
      ensures LastNaming(methods, j) ==> Handles(listeners[methods[j].annotation.queueName], methods[j], bean)
    {
      LatestAt(methods, j);
    }

    /**
     * A walk whose queue names are distinct leaves, under the `j`-th method's
     * queue name, the listener built for that method.
     */
    lemma ProcessedDistinct(before: map<string, SqsMessageListener>, listeners: map<string, SqsMessageListener>,
                            methods: seq<Annotated<SqsMessageHandlerAnnotation>>, bean: Bean, taken: set<string>, j: nat)
      requires j < |methods| && Processed(before, listeners, Latest(methods, |methods|), methods, bean)
      requires FreshNames(methods, |methods|, taken)
      ensures methods[j].annotation.queueName in listeners
      ensures Handles(listeners[methods[j].annotation.queueName], methods[j], bean)
    {
      assert LastNaming(methods, j);
      ProcessedByMethod(before, listeners, methods, bean, j);
    }

    /** One turn of the loop of `postProcessAfterInitialization`: the `i`-th method. */
    method ProcessNext(methods: seq<Annotated<SqsMessageHandlerAnnotation>>, i: nat, bean: Bean,
                       ghost before: map<string, SqsMessageListener>, ghost taken: set<string>) returns (o: Outcome)
      requires Valid() && i < |methods| && Processed(before, sqsMessageListenerManager.listeners, Latest(methods, i), methods, bean)
      requires sqsMessageListenerManager.bound == taken + Latest(methods, i).Keys && FreshNames(methods, i, taken)
      modifies sqsMessageListenerManager
      ensures Valid()
      ensures before.Keys <= sqsMessageListenerManager.listeners.Keys
      ensures Framed(before, sqsMessageListenerManager.listeners, Latest(methods, |methods|).Keys)
      ensures o == Done ==> Processed(before, sqsMessageListenerManager.listeners, Latest(methods, i + 1), methods, bean)
      ensures o == Done ==> sqsMessageListenerManager.bound == taken + Latest(methods, i + 1).Keys && FreshNames(methods, i + 1, taken)
    {
      ghost var latest := Latest(methods, i);
      assert Latest(methods, i + 1) == latest[methods[i].annotation.queueName := i];
      ghost var previous := sqsMessageListenerManager.listeners;
      ghost var name := methods[i].annotation.queueName;
      o := RegisterFor(methods, i, bean, latest);
      ghost var listeners := sqsMessageListenerManager.listeners;
      FramedStep(before, previous, listeners, latest, name, i);
      if o == Done {
        KeysStep(before, previous, listeners, latest, name, i);
        HandledStep(previous, latest, methods, i, bean, listeners[name]);
        FreshStep(methods, i, taken);
      }
      FramedWalk(before, listeners, methods, i + 1);
    }

    /**
     * The loop of `postProcessAfterInitialization` over the annotated methods;
     * the first failure stops it. A success binds each method's queue name, so
     * it also shows that no two methods named the same queue and that none
     * of their names was bound before.
     */
    method ProcessHandlerMethods(annotatedMethods: seq<Annotated<SqsMessageHandlerAnnotation>>, bean: Bean) returns (o: Outcome)
      requires Valid()
      modifies sqsMessageListenerManager
      ensures Valid()
      ensures old(sqsMessageListenerManager.listeners.Keys) <= sqsMessageListenerManager.listeners.Keys
      ensures Framed(old(sqsMessageListenerManager.listeners), sqsMessageListenerManager.listeners, Latest(annotatedMethods, |annotatedMethods|).Keys)
      ensures o == Done ==>
                Processed(old(sqsMessageListenerManager.listeners), sqsMessageListenerManager.listeners,
                          Latest(annotatedMethods, |annotatedMethods|), annotatedMethods, bean)
      ensures o == Done ==>
                forall i :: 0 <= i < |annotatedMethods| ==> annotatedMethods[i].annotation.queueName in sqsMessageListenerManager.listeners
      ensures o == Done ==>
                && FreshNames(annotatedMethods, |annotatedMethods|, old(sqsMessageListenerManager.bound))
                && sqsMessageListenerManager.bound == old(sqsMessageListenerManager.bound) + Latest(annotatedMethods, |annotatedMethods|).Keys
    {
      ghost var before, taken := sqsMessageListenerManager.listeners, sqsMessageListenerManager.bound;
      o := Done;
      for i := 0 to |annotatedMethods|
        invariant Valid()
        invariant Processed(before, sqsMessageListenerManager.listeners, Latest(annotatedMethods, i), annotatedMethods, bean)
        invariant sqsMessageListenerManager.bound == taken + Latest(annotatedMethods, i).Keys && FreshNames(annotatedMethods, i, taken)
      {
        o := ProcessNext(annotatedMethods, i, bean, before, taken);
        if o.Threw? {
          return;
        }
      }
      LatestCovers(annotatedMethods, |annotatedMethods|);
    }
  }
}
