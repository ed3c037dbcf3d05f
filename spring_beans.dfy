/**
 * The parts of Spring the post-processors, the registry and the manager talk
 * to, reduced to values: the beans an expression can evaluate to, expression
 * resolvers as functions, what reflection reports about a bean's class, and
 * application contexts by identity.
 */
module SpringBeans {
  import opened JavaLang
  import opened SqsTypes
  import opened Queue
  import opened Annotations

  const NOT_INITIALIZED: string := "ThreadPoolTaskExecutor not initialized"

  /** A `ThreadPoolTaskExecutor` bean: it has its `ThreadPoolExecutor` once it is initialized. */
  datatype TaskExecutorBean = TaskExecutorBean(threadPoolExecutor: Option<ExecutorRef>)

  /** `getThreadPoolExecutor`: the pool, or IllegalStateException before initialization. */
  function ThreadPoolExecutorOf(bean: TaskExecutorBean): Result<ExecutorRef> {
    match bean.threadPoolExecutor
    case Some(e) => Success(e)
    case None => Failure(IllegalState(NOT_INITIALIZED))
  }

  /** A `TaskExecutor`: a `ThreadPoolTaskExecutor`, or an implementation of another class. */
  datatype TaskExecutorObject = PoolTaskExecutor(bean: TaskExecutorBean) | OtherTaskExecutor(ref: ObjectRef)

  /** The object an expression evaluates to. */
  datatype Value =
    | NullValue
    | StringValue(s: string)
    | ErrorHandlerValue(errorHandler: ErrorHandlerRef)
    | QueueValue(queue: SqsQueue)
    | ConfigurerValue(configurer: ConfigurerRef)
    | TaskExecutorValue(executor: TaskExecutorObject)
    | OtherValue(ref: ObjectRef)   // an object of any other class

  /** What `BeanExpressionResolver.evaluate` does: it yields a value or throws a BeansException. */
  datatype Evaluation = Evaluated(value: Value) | BeansException

  /** A `BeanExpressionResolver` together with the expression context it is given. */
  type Resolver = string -> Evaluation

  /** A `ConfigurableListableBeanFactory`: placeholder resolution and its expression resolver. */
  datatype BeanFactory = BeanFactory(resolveEmbeddedValue: string -> string, expressionResolver: Resolver)

  /** The argument of `setBeanFactory`: only a `ConfigurableListableBeanFactory` is used. */
  datatype BeanFactoryObject = ConfigurableListable(factory: BeanFactory) | OtherBeanFactory

  /** The argument of `setApplicationContext`: only a `ConfigurableApplicationContext` is kept. */
  datatype ApplicationContextObject = ApplicationContextObject(ref: ContextRef, configurable: bool)

  /** An evaluation seen by Java code that does not catch the `BeansException`. */
  function Evaluate(resolver: Resolver, expression: string): Result<Value> {
    match resolver(expression)
    case Evaluated(v) => Success(v)
    case BeansException => Failure(ExpressionFailure)
  }

  /** `(ErrorHandler) value`. */
  function CastToErrorHandler(v: Value): Result<Option<ErrorHandlerRef>> {
    match v
    case NullValue => Success(None)
    case ErrorHandlerValue(h) => Success(Some(h))
    case _ => Failure(ClassCast)
  }

  /** `(SqsQueue) value`. */
  function CastToQueue(v: Value): Result<Option<SqsQueue>> {
    match v
    case NullValue => Success(None)
    case QueueValue(q) => Success(Some(q))
    case _ => Failure(ClassCast)
  }

  /** `(SqsConfigurer) value`. */
  function CastToConfigurer(v: Value): Result<Option<ConfigurerRef>> {
    match v
    case NullValue => Success(None)
    case ConfigurerValue(c) => Success(Some(c))
    case _ => Failure(ClassCast)
  }

  /** `(TaskExecutor) value`. */
  function CastToTaskExecutor(v: Value): Result<Option<TaskExecutorObject>> {
    match v
    case NullValue => Success(None)
    case TaskExecutorValue(e) => Success(Some(e))
    case _ => Failure(ClassCast)
  }

  const ERROR_HANDLER_FAILED: string := "Failed to register error handler bean"

  /**
   * `getErrorHandler`, as both post-processors write it: an empty
   * `exceptionHandler` attribute gives no error handler; otherwise the attribute
   * is evaluated (without placeholder resolution) and cast to `ErrorHandler`,
   * and any exception on the way becomes an IllegalStateException.
   */
  function GetErrorHandler(resolver: Resolver, exceptionHandler: string): (r: Result<Option<ErrorHandlerRef>>)
    ensures exceptionHandler == "" ==> r == Success(None)
    ensures r.Failure? ==> r.error == IllegalState(ERROR_HANDLER_FAILED)
    ensures exceptionHandler != "" ==>
              && (r == Success(None) <==> resolver(exceptionHandler) == Evaluated(NullValue))
              && (forall h :: r == Success(Some(h)) <==> resolver(exceptionHandler) == Evaluated(ErrorHandlerValue(h)))
  {
    if exceptionHandler == "" then Success(None)
    else
      match resolver(exceptionHandler)
      case BeansException => Failure(IllegalState(ERROR_HANDLER_FAILED))
      case Evaluated(v) =>
        match CastToErrorHandler(v)
        case Success(h) => Success(h)
        case Failure(_) => Failure(IllegalState(ERROR_HANDLER_FAILED))
  }

  /** A method found by `MethodIntrospector.selectMethods`, with its annotation. */
  datatype Annotated<A> = Annotated(handlerMethod: MethodRef, annotation: A)

  /**
   * What reflection reports about a bean's target class: whether it can carry
   * the library's annotations at all (`AnnotationUtils.isCandidateClass`), its
   * class-level `@SqsListener`, and its annotated methods in the order the
   * introspector's map enumerates them.
   */
  datatype BeanClass = BeanClass(
    ref: ClassRef,
    candidate: bool,
    listenerAnnotation: Option<SqsListenerAnnotation>,
    handlerMethods: seq<Annotated<SqsHandlerAnnotation>>,
    listenerMethods: seq<Annotated<SqsListenerAnnotation>>,
    messageHandlerMethods: seq<Annotated<SqsMessageHandlerAnnotation>>)

  /**
   * A bean handed to a post-processor: the object, its ultimate target class
   * (`AopProxyUtils.ultimateTargetClass`), its runtime class (`getClass`, a
   * proxy class for a proxied bean) and whether it is AOP infrastructure.
   */
  datatype Bean = Bean(ref: ObjectRef, targetClass: BeanClass, runtimeClass: ClassRef, aopInfrastructure: bool)

  /** `AopUtils.selectInvocableMethod`: the method to invoke on an instance of the class for a method found by introspection. */
  type InvocableSelector = (MethodRef, ClassRef) -> MethodRef
}
