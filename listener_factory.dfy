/**
 * `DefaultSqsMessageListenerFactory`: turns the queue attributes the
 * `@SqsListener` post-processor resolved into a listener, through
 * `SqsMessageListenerBuilder`, with the factory's client, task executor and
 * interceptors.
 */
module ListenerFactory {
  import opened JavaLang
  import opened SqsTypes
  import opened Queue
  import opened Listener
  import opened Builder
  import opened SpringBeans

  /** `SqsQueueAttributes`: the resolved attributes of one `@SqsListener`; every field may be null. */
  datatype SqsQueueAttributes = SqsQueueAttributes(
    url: Option<string>,
    maxBatchSize: Option<int32>,
    visibilityTimeoutSeconds: Option<int32>,
    handler: Option<MessageHandler>,
    errorHandler: Option<ErrorHandlerRef>,
    longPolling: Option<bool>,
    autoAcknowledge: Option<bool>,
    concurrency: Option<int32>)

  /** `filters == null ? List.of() : filters`. */
  function InterceptorsOf(filters: Option<seq<InterceptorRef>>): (list: seq<InterceptorRef>)
    ensures filters.None? ==> list == []
    ensures filters.Some? ==> list == filters.value
  {
    filters.GetOr([])
  }

  /**
   * The queue a created listener consumes: every attribute copied unchanged,
   * and the factory's interceptors.
   */
  function ListenerQueue(attributes: SqsQueueAttributes, filters: Option<seq<InterceptorRef>>): (q: SqsQueue)
  {
    QueueOf(DEFAULT_FIELDS.(
      url := attributes.url,
      messageHandler := attributes.handler,
      errorHandler := attributes.errorHandler,
      concurrency := attributes.concurrency,
      maxBatchSize := attributes.maxBatchSize,
      visibilityTimeoutSeconds := attributes.visibilityTimeoutSeconds,
      longPolling := attributes.longPolling,
      autoAcknowledge := attributes.autoAcknowledge,
      interceptors := Some(InterceptorsOf(filters))))
  }

  /** Each attribute reaches the listener's queue unchanged, and no interceptor list is ever null. */
  lemma ListenerQueueCopiesAttributes(attributes: SqsQueueAttributes, filters: Option<seq<InterceptorRef>>)
    ensures var q := ListenerQueue(attributes, filters);
      && q.url == attributes.url && q.handler == attributes.handler && q.errorHandler == attributes.errorHandler
      && q.concurrency == attributes.concurrency && q.maxBatchSize == attributes.maxBatchSize
      && q.visibilityTimeoutSeconds == attributes.visibilityTimeoutSeconds
      && q.longPolling == attributes.longPolling && q.autoAcknowledge == attributes.autoAcknowledge
      && q.interceptors.Some? && (filters.Some? ==> q.interceptors == filters)
  {
  }

  /** Two listeners created for attributes with the same url have equal queues, whatever the other attributes. */
  lemma SameUrlGivesEqualQueues(a: ObjectRef, x: SqsQueueAttributes, b: ObjectRef, y: SqsQueueAttributes, filters: Option<seq<InterceptorRef>>)
    requires a != b && x.url.Some? && x.url == y.url
    ensures Equals(a, ListenerQueue(x, filters), QueueObject(b, ListenerQueue(y, filters))) == Success(true)
  {
    EqualsIffSameUrl(a, ListenerQueue(x, filters), b, ListenerQueue(y, filters));
  }

  class DefaultSqsMessageListenerFactory {
    const sqsClient: Option<ClientRef>
    const messageProcessorTaskExecutor: Option<TaskExecutorBean>
    const filters: Option<seq<InterceptorRef>>

    constructor (client: Option<ClientRef>, taskExecutor: Option<TaskExecutorBean>, interceptors: Option<seq<InterceptorRef>>)
      ensures sqsClient == client && messageProcessorTaskExecutor == taskExecutor && filters == interceptors
    {
      sqsClient, messageProcessorTaskExecutor, filters := client, taskExecutor, interceptors;
    }

    /**
     * `getMessageProcessorExecutor`: null without a task executor, otherwise the
     * executor's thread pool, which it refuses to give before it is initialized.
     */
    function GetMessageProcessorExecutor(): (r: Result<Option<ExecutorRef>>)
      ensures messageProcessorTaskExecutor.None? ==> r == Success(None)
      ensures messageProcessorTaskExecutor.Some? ==>
                match messageProcessorTaskExecutor.value.threadPoolExecutor
                case Some(e) => r == Success(Some(e))
                case None => r == Failure(IllegalState(NOT_INITIALIZED))
    {
      match messageProcessorTaskExecutor
      case None => Success(None)
      case Some(bean) =>
        var pool :- ThreadPoolExecutorOf(bean);
        Success(Some(pool))
    }

    /**
     * `l` is a listener as `createListener` makes it for `attributes`: stopped,
     * without consumers, with the factory's client and task executor, over the
     * attributes' queue.
     */
    ghost predicate Made(l: SqsMessageListener, attributes: SqsQueueAttributes)
      reads l
    {
      && GetMessageProcessorExecutor().Success?
      && l.consumerMap == map[] && l.sqsClient == sqsClient
      && l.queue == Some(ListenerQueue(attributes, filters))
      && l.taskExecutor == SqsMessageListener.SuppliedExecutor(GetMessageProcessorExecutor().value)
      && l.consumerLoopExecutor == None && l.consumerCount == 1 && !l.isRunning
    }

    /**
     * `createListener`: a new, stopped listener of the factory's client over the
     * attributes' queue, with the factory's task executor; an uninitialized task
     * executor is an IllegalStateException and no listener is made.
     */
    method CreateListener(attributes: SqsQueueAttributes) returns (r: Result<SqsMessageListener>)
      ensures r.Failure? <==> GetMessageProcessorExecutor().Failure?
      ensures r.Failure? ==> r.error == IllegalState(NOT_INITIALIZED)
      ensures r.Success? ==> fresh(r.value) && r.value.Valid() && Made(r.value, attributes)
    {
      var builder := new SqsMessageListenerBuilder();
      var b := builder.Client(sqsClient);
      var executor := GetMessageProcessorExecutor();
      if executor.Failure? {
        return Failure(executor.error);
      }
      b := b.WithExecutor(executor.value);
      b := b.Url(attributes.url);
      b := b.Handler(attributes.handler);
      b := b.ErrorHandler(attributes.errorHandler);
      b := b.Concurrency(attributes.concurrency);
      b := b.MaxBatchSize(attributes.maxBatchSize);
      b := b.VisibilityTimeoutSeconds(attributes.visibilityTimeoutSeconds);
      b := b.LongPolling(attributes.longPolling);
      b := b.AutoAcknowledge(attributes.autoAcknowledge);
      b := b.Interceptors(Some(InterceptorsOf(filters)));
      var listener := b.Build();
      return Success(listener);
    }
  }
}
