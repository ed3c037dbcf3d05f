/**
 * Values exchanged with the collaborators the library does not own: the SQS
 * client, user callbacks, executors and Spring beans are opaque references;
 * an SQS message is a plain record.
 */
module SqsTypes {
  import opened JavaLang

  /** An `SqsClient` instance. */
  datatype ClientRef = ClientRef(id: nat)
  /** An `ExecutorService` supplied from outside (by the user or a Spring bean). */
  datatype ExecutorRef = ExecutorRef(id: nat)
  /** A user `ErrorHandler`. */
  datatype ErrorHandlerRef = ErrorHandlerRef(id: nat)
  /** A user `MessageHandler` implementation. */
  datatype HandlerRef = HandlerRef(id: nat)
  /** A `HandlerInterceptor`. */
  datatype InterceptorRef = InterceptorRef(id: nat)
  /** A `java.lang.reflect.Method`. */
  datatype MethodRef = MethodRef(id: nat)
  /** A Java class. */
  datatype ClassRef = ClassRef(id: nat)
  /** Any Java object (a bean, a queue instance, ...), by identity. */
  datatype ObjectRef = ObjectRef(id: nat)
  /** An `SqsConfigurer` bean. */
  datatype ConfigurerRef = ConfigurerRef(id: nat)
  /** A Spring `ApplicationContext`. */
  datatype ContextRef = ContextRef(id: nat)
  /** The `Runnable` handed to a thread factory. */
  datatype RunnableRef = RunnableRef(id: nat)
  /** An exception raised by a message handler. */
  datatype ExceptionRef = ExceptionRef(id: nat)
  /** A `java.lang.Error` raised by a message handler (not caught by `catch (Exception e)`). */
  datatype ErrorRef = ErrorRef(id: nat)

  /**
   * An SQS message as the SDK delivers it; each message attribute is reduced to
   * its `stringValue()`, which is null (`None`) for an attribute of the Binary
   * data type.
   */
  datatype Message = Message(
    messageId: string,
    receiptHandle: string,
    body: string,
    messageAttributes: map<string, Option<string>>)

  /** How an `ExecutorService` held by a listener came to be. */
  datatype ExecutorKind =
    | Supplied(ref: ExecutorRef)
      // `Executors.newFixedThreadPool(threads, factory)`
    | FixedThreadPool(threads: int, threadPrefix: string)
      // a `ThreadPoolExecutor` whose core threads may time out
    | ThreadPool(poolSize: int, keepAliveSeconds: int, threadPrefix: string, allowCoreThreadTimeOut: bool)

  /** An executor and whether `shutdown` has been called on it. */
  datatype Executor = Executor(kind: ExecutorKind, shutDown: bool)

  /**
   * What `executor.submit(task)` does before the task runs: a null executor is a
   * NullPointerException, a shut-down one rejects the task.
   */
  function SubmitCheck(executor: Option<Executor>): (r: Outcome)
    ensures r == Done <==> executor.Some? && !executor.value.shutDown
    ensures r.Threw? ==> r.error == NullPointer || r.error == RejectedExecution
  {
    match executor
    case None => Threw(NullPointer)
    case Some(e) => if e.shutDown then Threw(RejectedExecution) else Done
  }

  /** What an SDK call does: it returns, or throws an SDK exception, or throws anything else. */
  datatype CallOutcome = Returned | SdkException | OtherException
}
