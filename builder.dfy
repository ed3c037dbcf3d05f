/**
 * `SqsMessageListenerBuilder`: a fluent builder whose setters store one field
 * each and return the builder itself, and whose `build` makes the queue
 * descriptor and the listener.
 */
module Builder {
  import opened JavaLang
  import opened SqsTypes
  import opened Queue
  import opened Listener

  /** The builder's fields, as one value. */
  datatype BuilderFields = BuilderFields(
    sqsClient: Option<ClientRef>,
    executor: Option<ExecutorRef>,
    url: Option<string>,
    maxBatchSize: Option<int32>,
    visibilityTimeoutSeconds: Option<int32>,
    longPolling: Option<bool>,
    messageHandler: Option<MessageHandler>,
    errorHandler: Option<ErrorHandlerRef>,
    autoAcknowledge: Option<bool>,
    concurrency: Option<int32>,
    interceptors: Option<seq<InterceptorRef>>)

  /** A new builder: batches of 10, 60 seconds of visibility, long polling, auto-acknowledge, one consumer, no interceptors. */
  const DEFAULT_FIELDS: BuilderFields :=
    BuilderFields(None, None, None, Some(10), Some(60), Some(true), None, None, Some(true), Some(1), Some([]))

  /** The queue descriptor `build` makes: every queue field is the builder's field of the same name. */
  function QueueOf(f: BuilderFields): (q: SqsQueue)
    ensures q.url == f.url && q.maxBatchSize == f.maxBatchSize
    ensures q.visibilityTimeoutSeconds == f.visibilityTimeoutSeconds
    ensures q.handler == f.messageHandler && q.errorHandler == f.errorHandler
    ensures q.longPolling == f.longPolling && q.autoAcknowledge == f.autoAcknowledge
    ensures q.concurrency == f.concurrency && q.interceptors == f.interceptors
  {
    SqsQueue(f.url, f.maxBatchSize, f.visibilityTimeoutSeconds, f.messageHandler, f.errorHandler,
             f.longPolling, f.autoAcknowledge, f.concurrency, f.interceptors)
  }

  /** A queue built without setting a field carries the documented default. */
  lemma DefaultQueue()
    ensures var q := QueueOf(DEFAULT_FIELDS);
      && q.maxBatchSize == Some(10) && q.visibilityTimeoutSeconds == Some(60)
      && q.longPolling == Some(true) && q.autoAcknowledge == Some(true)
      && q.concurrency == Some(1) && q.interceptors == Some([])
      && q.url == None && q.handler == None && q.errorHandler == None
  {
  }

  /** Since equality of queues depends on the url only, two builds with the same url give equal queues. */
  lemma {:induction false} SameUrlBuildsEqualQueues(a: ObjectRef, fa: BuilderFields, b: ObjectRef, fb: BuilderFields)
    requires a != b && fa.url.Some? && fa.url == fb.url
    ensures Equals(a, QueueOf(fa), QueueObject(b, QueueOf(fb))) == Success(true)
    ensures HashCode(QueueOf(fa)) == HashCode(QueueOf(fb))
  {
    EqualsIffSameUrl(a, QueueOf(fa), b, QueueOf(fb));
  }

  class SqsMessageListenerBuilder {
    var sqsClient: Option<ClientRef>
    var executor: Option<ExecutorRef>
    var url: Option<string>
    var maxBatchSize: Option<int32>
    var visibilityTimeoutSeconds: Option<int32>
    var longPolling: Option<bool>
    var messageHandler: Option<MessageHandler>
    var errorHandler: Option<ErrorHandlerRef>
    var autoAcknowledge: Option<bool>
    var concurrency: Option<int32>
    var interceptors: Option<seq<InterceptorRef>>

    function Fields(): BuilderFields
      reads this
    {
      BuilderFields(sqsClient, executor, url, maxBatchSize, visibilityTimeoutSeconds, longPolling,
                    messageHandler, errorHandler, autoAcknowledge, concurrency, interceptors)
    }

    constructor ()
      ensures Fields() == DEFAULT_FIELDS
    {
      sqsClient, executor, url := None, None, None;
      maxBatchSize, visibilityTimeoutSeconds, longPolling := Some(10), Some(60), Some(true);
      messageHandler, errorHandler := None, None;
      autoAcknowledge, concurrency, interceptors := Some(true), Some(1), Some([]);
    }

    method Client(client: Option<ClientRef>) returns (b: SqsMessageListenerBuilder)
      modifies this
      ensures b == this && Fields() == old(Fields()).(sqsClient := client)
    {
      sqsClient := client;
      b := this;
    }

    method WithExecutor(e: Option<ExecutorRef>) returns (b: SqsMessageListenerBuilder)
      modifies this
      ensures b == this && Fields() == old(Fields()).(executor := e)
    {
      executor := e;
      b := this;
    }

    method Url(u: Option<string>) returns (b: SqsMessageListenerBuilder)
      modifies this
      ensures b == this && Fields() == old(Fields()).(url := u)
    {
      url := u;
      b := this;
    }

    method MaxBatchSize(n: Option<int32>) returns (b: SqsMessageListenerBuilder)
      modifies this
      ensures b == this && Fields() == old(Fields()).(maxBatchSize := n)
    {
      maxBatchSize := n;
      b := this;
    }

    method VisibilityTimeoutSeconds(n: Option<int32>) returns (b: SqsMessageListenerBuilder)
      modifies this
      ensures b == this && Fields() == old(Fields()).(visibilityTimeoutSeconds := n)
    {
      visibilityTimeoutSeconds := n;
      b := this;
    }

    method LongPolling(enabled: Option<bool>) returns (b: SqsMessageListenerBuilder)
      modifies this
      ensures b == this && Fields() == old(Fields()).(longPolling := enabled)
    {
      longPolling := enabled;
      b := this;
    }

    method Handler(h: Option<MessageHandler>) returns (b: SqsMessageListenerBuilder)
      modifies this
      ensures b == this && Fields() == old(Fields()).(messageHandler := h)
    {
      messageHandler := h;
      b := this;
    }

    method ErrorHandler(h: Option<ErrorHandlerRef>) returns (b: SqsMessageListenerBuilder)
      modifies this
      ensures b == this && Fields() == old(Fields()).(errorHandler := h)
    {
      errorHandler := h;
      b := this;
    }

    method AutoAcknowledge(enabled: Option<bool>) returns (b: SqsMessageListenerBuilder)
      modifies this
      ensures b == this && Fields() == old(Fields()).(autoAcknowledge := enabled)
    {
      autoAcknowledge := enabled;
      b := this;
    }

    method Concurrency(n: Option<int32>) returns (b: SqsMessageListenerBuilder)
      modifies this
      ensures b == this && Fields() == old(Fields()).(concurrency := n)
    {
      concurrency := n;
      b := this;
    }

    method Interceptors(list: Option<seq<InterceptorRef>>) returns (b: SqsMessageListenerBuilder)
      modifies this
      ensures b == this && Fields() == old(Fields()).(interceptors := list)
    {
      interceptors := list;
      b := this;
    }

    /**
     * `build`: a listener for the builder's client and executor (an unset
     * executor stays null) over the queue made of the builder's fields.
     */
    method Build() returns (listener: SqsMessageListener)
      ensures fresh(listener) && listener.Valid() && listener.consumerMap == map[]
      ensures listener.sqsClient == sqsClient
      ensures listener.State() == Config(Some(QueueOf(Fields())), SqsMessageListener.SuppliedExecutor(executor), None, 1, false)
    {
      var queue := SqsQueue(url, maxBatchSize, visibilityTimeoutSeconds, messageHandler, errorHandler,
                            longPolling, autoAcknowledge, concurrency, interceptors);
      listener := new SqsMessageListener.WithQueue(sqsClient, executor, queue);
    }
  }

  /**
   * A chain of setters on a new builder: a setter called twice keeps its last
   * value, the others keep their defaults, and the client passes through.
   */
  method BuildScenario(client: ClientRef, h: MessageHandler) returns (q: SqsQueue, c: Option<ClientRef>, e: Option<Executor>)
    ensures q.url == Some("https://sqs/queue-b") && q.handler == Some(h) && q.maxBatchSize == Some(5)
    ensures q.visibilityTimeoutSeconds == Some(60) && q.longPolling == Some(true) && q.autoAcknowledge == Some(true)
    ensures q.concurrency == Some(1) && q.interceptors == Some([]) && q.errorHandler == None
    ensures c == Some(client) && e == None
  {
    var builder := new SqsMessageListenerBuilder();
    var b := builder.Client(Some(client));
    b := b.Url(Some("https://sqs/queue-a"));
    b := b.Handler(Some(h));
    b := b.MaxBatchSize(Some(5));
    b := b.Url(Some("https://sqs/queue-b"));
    var listener := b.Build();
    q, c, e := listener.queue.value, listener.sqsClient, listener.taskExecutor;
  }
}
