/**
 * The `@SqsListener` bean post-processor (the `internal` package). A bean
 * whose class carries `@SqsListener` becomes one listener that routes each
 * message by its `messageType` attribute to the class's `@SqsHandler`
 * methods; otherwise each `@SqsListener` method becomes a listener of its
 * own. The annotation's attributes are expressions, resolved through the bean
 * factory; the listeners are made by the listener factory and handed to the
 * listener registry.
 */
module ListenerPostProcessor {
  import opened JavaLang
  import opened JavaText
  import opened SqsTypes
  import opened Annotations
  import opened SpringBeans
  import opened Routing
  import opened Queue
  import opened Listener
  import opened ListenerFactory
  import opened Registry
  import opened JavaUtil

  const BLANK_MESSAGE_TYPE: string := "non-default handler method messageType can not be blank"

  /** A `@SqsHandler` method with its annotation, as the introspector lists it. */
  type HandlerEntry = Annotated<SqsHandlerAnnotation>

  /** A handler method that is not the default one must name a message type. */
  predicate Misdeclared(a: SqsHandlerAnnotation) {
    IsBlank(a.messageType) && !a.isDefault
  }

  /** One turn of the loop of `buildMethodMapping`, on the invocable `method` and its annotation. */
  function MappingStep(acc: MethodMapping, m: MethodRef, a: SqsHandlerAnnotation): Result<MethodMapping> {
    if Misdeclared(a) then Failure(IllegalArgument(BLANK_MESSAGE_TYPE))
    else
      Success(MethodMapping(
        if IsBlank(a.messageType) then acc.attributeMethodMap else acc.attributeMethodMap[a.messageType := m],
        if a.isDefault then Some(m) else acc.defaultMethod))
  }

  /** The loop of `buildMethodMapping` run over `entries`, from the mapping `acc`. */
  function MappingFrom(acc: MethodMapping, entries: seq<HandlerEntry>, target: ClassRef, select: InvocableSelector)
    : Result<MethodMapping>
    decreases |entries|
  {
    if |entries| == 0 then Success(acc)
    else
      var next :- MappingStep(acc, select(entries[0].handlerMethod, target), entries[0].annotation);
      MappingFrom(next, entries[1..], target, select)
  }

  /** `buildMethodMapping`, as a function of the handler methods. */
  function MethodMappingOf(entries: seq<HandlerEntry>, target: ClassRef, select: InvocableSelector): Result<MethodMapping> {
    MappingFrom(MethodMapping(map[], None), entries, target, select)
  }

  /** The loop fails, with IllegalArgumentException, exactly when a non-default handler has a blank message type. */
  lemma {:induction false} MappingFromFails(acc: MethodMapping, entries: seq<HandlerEntry>, target: ClassRef, select: InvocableSelector)
    ensures MappingFrom(acc, entries, target, select).Failure? <==>
              exists i :: 0 <= i < |entries| && Misdeclared(entries[i].annotation)
    ensures MappingFrom(acc, entries, target, select).Failure? ==>
              MappingFrom(acc, entries, target, select).error == IllegalArgument(BLANK_MESSAGE_TYPE)
    decreases |entries|
  {
    if |entries| > 0 {
      var step := MappingStep(acc, select(entries[0].handlerMethod, target), entries[0].annotation);
      if step.Success? {
        MappingFromFails(step.value, entries[1..], target, select);
        if exists i :: 0 <= i < |entries[1..]| && Misdeclared(entries[1..][i].annotation) {
          var i :| 0 <= i < |entries[1..]| && Misdeclared(entries[1..][i].annotation);
          assert Misdeclared(entries[i + 1].annotation);
        }
        if exists i :: 0 <= i < |entries| && Misdeclared(entries[i].annotation) {
          var i :| 0 <= i < |entries| && Misdeclared(entries[i].annotation);
          assert i > 0 && Misdeclared(entries[1..][i - 1].annotation);
        }
      }
    }
  }

  /** The default method is the invocable method of the last default handler; without one it is the starting default. */
  lemma {:induction false} MappingFromDefault(acc: MethodMapping, entries: seq<HandlerEntry>, target: ClassRef, select: InvocableSelector)
    requires MappingFrom(acc, entries, target, select).Success?
    ensures var m := MappingFrom(acc, entries, target, select).value;
      && ((forall i :: 0 <= i < |entries| ==> !entries[i].annotation.isDefault) ==> m.defaultMethod == acc.defaultMethod)
      && (forall i :: 0 <= i < |entries| && entries[i].annotation.isDefault &&
                      (forall j :: i < j < |entries| ==> !entries[j].annotation.isDefault) ==>
                        m.defaultMethod == Some(select(entries[i].handlerMethod, target)))
    decreases |entries|
  {
    if |entries| > 0 {
      var next := MappingStep(acc, select(entries[0].handlerMethod, target), entries[0].annotation).value;
      var rest := entries[1..];
      MappingFromDefault(next, rest, target, select);
      var m := MappingFrom(acc, entries, target, select).value;
      forall i | 0 <= i < |entries| && entries[i].annotation.isDefault &&
                 (forall j :: i < j < |entries| ==> !entries[j].annotation.isDefault)
        ensures m.defaultMethod == Some(select(entries[i].handlerMethod, target))
      {
        if i == 0 {
          assert forall j :: 0 <= j < |rest| ==> !rest[j].annotation.isDefault by {
            forall j | 0 <= j < |rest| ensures !rest[j].annotation.isDefault {
              assert rest[j] == entries[j + 1];
            }
          }
        } else {
          assert rest[i - 1] == entries[i];
          assert forall j :: i - 1 < j < |rest| ==> !rest[j].annotation.isDefault by {
            forall j | i - 1 < j < |rest| ensures !rest[j].annotation.isDefault {
              assert rest[j] == entries[j + 1];
            }
          }
        }
      }
      if forall i :: 0 <= i < |entries| ==> !entries[i].annotation.isDefault {
        assert forall j :: 0 <= j < |rest| ==> !rest[j].annotation.isDefault by {
          forall j | 0 <= j < |rest| ensures !rest[j].annotation.isDefault {
            assert rest[j] == entries[j + 1];
          }
        }
      }
    }
  }

  /** The message types `entries` map: the non-blank ones. */
  function MappedTypes(entries: seq<HandlerEntry>): set<string> {
    set i | 0 <= i < |entries| && !IsBlank(entries[i].annotation.messageType) :: entries[i].annotation.messageType
  }

  /** Whether no handler after position `i` declares the message type `t`. */
  predicate LastOfType(entries: seq<HandlerEntry>, i: int, t: string) {
    forall j :: 0 <= j < |entries| && i < j ==> entries[j].annotation.messageType != t
  }

  /**
   * Every non-blank message type is mapped, to the invocable method of the last
   * handler declaring it; a type no handler declares keeps its starting entry.
   */
  lemma {:induction false} MappingFromTypes(acc: MethodMapping, entries: seq<HandlerEntry>, target: ClassRef, select: InvocableSelector)
    requires MappingFrom(acc, entries, target, select).Success?
    ensures var m := MappingFrom(acc, entries, target, select).value;
      && m.attributeMethodMap.Keys == acc.attributeMethodMap.Keys + MappedTypes(entries)
      && (forall i :: 0 <= i < |entries| && !IsBlank(entries[i].annotation.messageType) &&
                      LastOfType(entries, i, entries[i].annotation.messageType) ==>
                        m.attributeMethodMap[entries[i].annotation.messageType] == select(entries[i].handlerMethod, target))
      && (forall t :: t in acc.attributeMethodMap && LastOfType(entries, -1, t) ==>
                        m.attributeMethodMap[t] == acc.attributeMethodMap[t])
    decreases |entries|
  {
    if |entries| > 0 {
      var a := entries[0].annotation;
      var m0 := select(entries[0].handlerMethod, target);
      var next := MappingStep(acc, m0, a).value;
      var rest := entries[1..];
      MappingFromTypes(next, rest, target, select);
      var m := MappingFrom(acc, entries, target, select).value;
      assert MappedTypes(entries) == MappedTypes(rest) + (if IsBlank(a.messageType) then {} else {a.messageType}) by {
        forall t | t in MappedTypes(entries) ensures t in MappedTypes(rest) + (if IsBlank(a.messageType) then {} else {a.messageType}) {
          var i :| 0 <= i < |entries| && !IsBlank(entries[i].annotation.messageType) && entries[i].annotation.messageType == t;
          if i > 0 {
            assert rest[i - 1] == entries[i];
          }
        }
        forall t | t in MappedTypes(rest) ensures t in MappedTypes(entries) {
          var i :| 0 <= i < |rest| && !IsBlank(rest[i].annotation.messageType) && rest[i].annotation.messageType == t;
          assert rest[i] == entries[i + 1];
        }
      }
      forall i | 0 <= i < |entries| && !IsBlank(entries[i].annotation.messageType) &&
                 LastOfType(entries, i, entries[i].annotation.messageType)
        ensures m.attributeMethodMap[entries[i].annotation.messageType] == select(entries[i].handlerMethod, target)
      {
        var t := entries[i].annotation.messageType;
        if i == 0 {
          assert LastOfType(rest, -1, t) by {
            forall j | 0 <= j < |rest| ensures rest[j].annotation.messageType != t {
              assert rest[j] == entries[j + 1];
            }
          }
        } else {
          assert rest[i - 1] == entries[i];
          assert LastOfType(rest, i - 1, t) by {
            forall j | i - 1 < j < |rest| ensures rest[j].annotation.messageType != t {
              assert rest[j] == entries[j + 1];
            }
          }
        }
      }
      forall t | t in acc.attributeMethodMap && LastOfType(entries, -1, t)
        ensures m.attributeMethodMap[t] == acc.attributeMethodMap[t]
      {
        assert entries[0].annotation.messageType != t;
        assert LastOfType(rest, -1, t) by {
          forall j | 0 <= j < |rest| ensures rest[j].annotation.messageType != t {
            assert rest[j] == entries[j + 1];
          }
        }
      }
    }
  }

  /**
   * What `buildMethodMapping` promises of the class's handler methods: it fails
   * exactly when a non-default handler has a blank message type; otherwise the
   * non-blank types are mapped, each to the last handler declaring it, and the
   * default is the last default handler, if any. A default handler with a
   * type is both.
   */
  lemma MethodMappingOfSpec(entries: seq<HandlerEntry>, target: ClassRef, select: InvocableSelector)
    ensures var r := MethodMappingOf(entries, target, select);
      && (r.Failure? <==> exists i :: 0 <= i < |entries| && Misdeclared(entries[i].annotation))
      && (r.Failure? ==> r.error == IllegalArgument(BLANK_MESSAGE_TYPE))
      && (r.Success? ==>
            && r.value.attributeMethodMap.Keys == MappedTypes(entries)
            && (forall i :: 0 <= i < |entries| && !IsBlank(entries[i].annotation.messageType) &&
                            LastOfType(entries, i, entries[i].annotation.messageType) ==>
                              r.value.GetMethod(entries[i].annotation.messageType) == Some(select(entries[i].handlerMethod, target)))
            && ((forall i :: 0 <= i < |entries| ==> !entries[i].annotation.isDefault) ==> r.value.defaultMethod == None)
            && (forall i :: 0 <= i < |entries| && entries[i].annotation.isDefault &&
                            (forall j :: i < j < |entries| ==> !entries[j].annotation.isDefault) ==>
                              r.value.defaultMethod == Some(select(entries[i].handlerMethod, target))))
  {
    var acc := MethodMapping(map[], None);
    MappingFromFails(acc, entries, target, select);
    if MethodMappingOf(entries, target, select).Success? {
      MappingFromDefault(acc, entries, target, select);
      MappingFromTypes(acc, entries, target, select);
    }
  }

  /** `resolveSpEl`: placeholders resolved by the bean factory (a NullPointerException before one is set), then evaluation. */
  function ResolveSpEl(beanFactory: Option<BeanFactory>, resolver: Resolver, value: string): Result<Value> {
    match beanFactory
    case None => Failure(NullPointer)
    case Some(factory) => Evaluate(resolver, factory.resolveEmbeddedValue(value))
  }

  /** `resolveToString`: the expression must evaluate to a string; anything else, null included, is an IllegalArgumentException. */
  function ResolveToString(beanFactory: Option<BeanFactory>, resolver: Resolver, value: string): (r: Result<string>)
    ensures var e := ResolveSpEl(beanFactory, resolver, value);
      && (r.Success? <==> e.Success? && e.value.StringValue?)
      && (r.Success? ==> e.value == StringValue(r.value))
      && (e.Failure? ==> r == Failure(e.error))
      && (e.Success? && !e.value.StringValue? ==> r == Failure(IllegalArgument("Unable to evaluate " + value + " as String")))
  {
    var resolved :- ResolveSpEl(beanFactory, resolver, value);
    if resolved.StringValue? then Success(resolved.s)
    else Failure(IllegalArgument("Unable to evaluate " + value + " as String"))
  }

  /**
   * `resolveToInteger`: `Integer.valueOf((String) resolved)`; a value that is
   * not a string is a ClassCastException, a null one a NumberFormatException.
   */
  function ResolveToInteger(beanFactory: Option<BeanFactory>, resolver: Resolver, value: string): (r: Result<int32>)
    ensures var e := ResolveSpEl(beanFactory, resolver, value);
      && (r.Success? ==> e.Success? && e.value.StringValue? && ParseInt(e.value.s) == Success(r.value))
      && (e.Failure? ==> r == Failure(e.error))
      && (e == Success(NullValue) ==> r == Failure(NumberFormat(None)))
      && (e.Success? && !e.value.StringValue? && e.value != NullValue ==> r == Failure(ClassCast))
      && (e.Success? && e.value.StringValue? ==>
            match ParseInt(e.value.s)
            case Success(n) => r == Success(n)
            case Failure(err) => r == Failure(err))
  {
    var resolved :- ResolveSpEl(beanFactory, resolver, value);
    match resolved
    case NullValue => Failure(NumberFormat(None))
    case StringValue(s) =>
      (match ParseInt(s)
       case Success(n) => Success(n)
       case Failure(e) => Failure(e))
    case _ => Failure(ClassCast)
  }

  /** A resolver that evaluates a decimal literal to itself makes `resolveToInteger` give back the number written. */
  lemma {:induction false} ResolveIntegerLiteral(factory: BeanFactory, resolver: Resolver, n: int32)
    requires factory.resolveEmbeddedValue(IntToString(n)) == IntToString(n)
    requires resolver(IntToString(n)) == Evaluated(StringValue(IntToString(n)))
    ensures ResolveToInteger(Some(factory), resolver, IntToString(n)) == Success(n)
  {
    ParseIntOfIntToString(n);
  }

  /**
   * `createQueueAttributes`: the url, error handler, batch size, visibility
   * timeout and concurrency are resolved in the source's order (the first
   * exception ends it); long polling holds iff the poll mode is LONG and
   * auto-acknowledge iff the ack mode is AUTO.
   */
  function CreateQueueAttributes(beanFactory: Option<BeanFactory>, resolver: Resolver,
                                 a: SqsListenerAnnotation, handler: MessageHandler): (r: Result<SqsQueueAttributes>)
    ensures r.Success? <==>
              && ResolveToString(beanFactory, resolver, a.url).Success?
              && GetErrorHandler(resolver, a.exceptionHandler).Success?
              && ResolveToInteger(beanFactory, resolver, a.maxBatchSize).Success?
              && ResolveToInteger(beanFactory, resolver, a.visibilityTimeout).Success?
              && ResolveToInteger(beanFactory, resolver, a.concurrency).Success?
    ensures r.Success? ==>
              && r.value.url == Some(ResolveToString(beanFactory, resolver, a.url).value)
              && r.value.errorHandler == GetErrorHandler(resolver, a.exceptionHandler).value
              && r.value.maxBatchSize == Some(ResolveToInteger(beanFactory, resolver, a.maxBatchSize).value)
              && r.value.visibilityTimeoutSeconds == Some(ResolveToInteger(beanFactory, resolver, a.visibilityTimeout).value)
              && r.value.concurrency == Some(ResolveToInteger(beanFactory, resolver, a.concurrency).value)
              && r.value.handler == Some(handler)
              && (r.value.longPolling == Some(true) <==> a.pollMode == Long) && r.value.longPolling.Some?
              && (r.value.autoAcknowledge == Some(true) <==> a.ackMode == Auto) && r.value.autoAcknowledge.Some?
    ensures ResolveToString(beanFactory, resolver, a.url).Failure? ==>
              r == Failure(ResolveToString(beanFactory, resolver, a.url).error)
  {
    var url :- ResolveToString(beanFactory, resolver, a.url);
    var errorHandler :- GetErrorHandler(resolver, a.exceptionHandler);
    var maxBatchSize :- ResolveToInteger(beanFactory, resolver, a.maxBatchSize);
    var visibilityTimeout :- ResolveToInteger(beanFactory, resolver, a.visibilityTimeout);
    var concurrency :- ResolveToInteger(beanFactory, resolver, a.concurrency);
    Success(SqsQueueAttributes(Some(url), Some(maxBatchSize), Some(visibilityTimeout), Some(handler), errorHandler,
                               Some(a.pollMode == Long), Some(a.ackMode == Auto), Some(concurrency)))
  }

  /**
   * With placeholders and expressions that evaluate literals to themselves, an
   * `@SqsListener` that sets only its url gets batches of 10, 60 seconds of
   * visibility, one consumer, long polling, auto-acknowledge and no error handler.
   */
  lemma DefaultListenerAttributes(factory: BeanFactory, url: string, handler: MessageHandler)
    requires forall s :: factory.resolveEmbeddedValue(s) == s
    requires forall s :: factory.expressionResolver(s) == Evaluated(StringValue(s))
    ensures CreateQueueAttributes(Some(factory), factory.expressionResolver, DEFAULT_SQS_LISTENER.(url := url), handler)
            == Success(SqsQueueAttributes(Some(url), Some(10), Some(60), Some(handler), None, Some(true), Some(true), Some(1)))
  {
    assert IntToString(10) == "10" && IntToString(60) == "60" && IntToString(1) == "1";
    ResolveIntegerLiteral(factory, factory.expressionResolver, 10);
    ResolveIntegerLiteral(factory, factory.expressionResolver, 60);
    ResolveIntegerLiteral(factory, factory.expressionResolver, 1);
  }

  /** How many listeners processing a bean of class `c` registers when nothing fails. */
  function ListenerCount(c: BeanClass): nat {
    if c.listenerAnnotation.Some? then (if |c.handlerMethods| == 0 then 0 else 1)
    else |c.listenerMethods|
  }

  /** What one listener is made of: the `@SqsListener` annotation and the handler its messages go to. */
  datatype ListenerSpec = ListenerSpec(annotation: SqsListenerAnnotation, handler: MessageHandler)

  /** One listener per `@SqsListener` method of `c`, in the introspector's order, calling that method on the bean. */
  function MethodListenerSpecs(c: BeanClass, bean: ObjectRef): (r: seq<ListenerSpec>)
    ensures |r| == |c.listenerMethods|
    ensures forall i :: 0 <= i < |r| ==>
              r[i] == ListenerSpec(c.listenerMethods[i].annotation, MethodHandler(c.listenerMethods[i].handlerMethod, bean))
  {
    seq(|c.listenerMethods|, i requires 0 <= i < |c.listenerMethods| =>
      ListenerSpec(c.listenerMethods[i].annotation, MethodHandler(c.listenerMethods[i].handlerMethod, bean)))
  }

  /**
   * The listeners processing a bean of class `c` makes, in order: for a class
   * with `@SqsListener`, one routing by the handler methods' mapping (none when
   * there are no handler methods or the mapping fails); otherwise one per
   * `@SqsListener` method.
   */
  function ListenerSpecs(c: BeanClass, bean: ObjectRef, select: InvocableSelector): (r: seq<ListenerSpec>)
    ensures |r| <= ListenerCount(c)
    ensures c.listenerAnnotation.None? || MethodMappingOf(c.handlerMethods, c.ref, select).Success? ==> |r| == ListenerCount(c)
    ensures c.listenerAnnotation.Some? && |r| == 1 ==>
              MethodMappingOf(c.handlerMethods, c.ref, select).Success? &&
              r[0] == ListenerSpec(c.listenerAnnotation.value,
                                   AttributeMappingHandler(bean, MethodMappingOf(c.handlerMethods, c.ref, select).value))
    ensures c.listenerAnnotation.None? ==> r == MethodListenerSpecs(c, bean)
  {
    if c.listenerAnnotation.Some? then
      var mapping := MethodMappingOf(c.handlerMethods, c.ref, select);
      if |c.handlerMethods| == 0 || mapping.Failure? then []
      else [ListenerSpec(c.listenerAnnotation.value, AttributeMappingHandler(bean, mapping.value))]
    else
      MethodListenerSpecs(c, bean)
  }

  /** A class `postProcessAfterInitialization` looks into: a candidate class not yet known to carry no listener. */
  predicate Inspected(bean: Bean, nonAnnotated: set<ClassRef>) {
    !bean.aopInfrastructure && bean.targetClass.ref !in nonAnnotated && bean.targetClass.candidate
  }

  class MessageListenerAnnotatedMethodBeanPostProcessor {
    const messageListenerFactory: DefaultSqsMessageListenerFactory
    const listenerRegistry: DefaultSqsListenerRegistry<SqsMessageListener>
    /** `AopUtils.selectInvocableMethod`. */
    const selectInvocable: InvocableSelector
    var beanFactory: Option<BeanFactory>
    var resolver: Resolver
    /** The classes found to carry no listener, never inspected again. */
    var nonAnnotatedClasses: set<ClassRef>

    ghost predicate Valid()
      reads this, listenerRegistry
    {
      listenerRegistry.Valid()
    }

    /**
     * `l` is the listener the factory makes for the queue attributes `spec`
     * resolves to with the bean factory `factory` and the resolver `res`.
     */
    ghost predicate ListenerFor(factory: Option<BeanFactory>, res: Resolver, l: SqsMessageListener, spec: ListenerSpec)
      reads l
    {
      && CreateQueueAttributes(factory, res, spec.annotation, spec.handler).Success?
      && messageListenerFactory.Made(l, CreateQueueAttributes(factory, res, spec.annotation, spec.handler).value)
    }

    /**
     * From the registry's map `before` and counter `k`, the listeners `created`
     * for the first of `specs` were registered in order: the i-th under the id
     * the counter's (k+i+1)-th value names, unless that id was taken.
     */
    ghost predicate Registered(before: map<string, SqsMessageListener>, k: nat,
                               created: seq<SqsMessageListener>, specs: seq<ListenerSpec>)
      reads this`beanFactory, this`resolver, listenerRegistry, created
    {
      && |created| <= |specs|
      && listenerRegistry.registrations == k + |created|
      && listenerRegistry.listeners == PutEach(before, RunIds(k, |created|), created)
      && forall i {:trigger ListenerFor(beanFactory, resolver, created[i], specs[i])} :: 0 <= i < |created| ==> ListenerFor(beanFactory, resolver, created[i], specs[i])
    }

    /** A new post-processor; until a bean factory is set, expressions go to a `StandardBeanExpressionResolver`. */
    constructor (factory: DefaultSqsMessageListenerFactory, registry: DefaultSqsListenerRegistry<SqsMessageListener>,
                 standardResolver: Resolver, select: InvocableSelector)
      ensures messageListenerFactory == factory && listenerRegistry == registry && selectInvocable == select
      ensures beanFactory == None && resolver == standardResolver && nonAnnotatedClasses == {}
    {
      messageListenerFactory, listenerRegistry, selectInvocable := factory, registry, select;
      beanFactory, resolver, nonAnnotatedClasses := None, standardResolver, {};
    }

    /** Before any registration, the run is empty. */
    lemma RegisteredNone(before: map<string, SqsMessageListener>, k: nat, specs: seq<ListenerSpec>)
      requires listenerRegistry.listeners == before && listenerRegistry.registrations == k
      ensures Registered(before, k, [], specs)
    {
      assert PutEach(before, RunIds(k, 0), []) == before;
    }

    /** A registration for the only one of `specs` makes the run of the listener it created, if any. */
    lemma RegisteredFirst(before: map<string, SqsMessageListener>, k: nat, specs: seq<ListenerSpec>,
                          created: seq<SqsMessageListener>)
      requires |specs| == 1 && |created| <= 1
      requires listenerRegistry.registrations == k + |created|
      requires created == [] ==> listenerRegistry.listeners == before
      requires |created| == 1 ==> listenerRegistry.listeners == PutIfAbsent(before, ListenerId(k), created[0])
      requires forall i :: 0 <= i < |created| ==> ListenerFor(beanFactory, resolver, created[i], specs[0])
      ensures Registered(before, k, created, specs)
    {
      assert PutEach(before, RunIds(k, 0), []) == before;
      if |created| == 1 {
        PutEachStep(before, k, [], created[0]);
        assert [] + [created[0]] == created;
      }
    }

    /**
     * A registration for the next of `specs`, from the map `prior` the run had
     * reached, extends the run by the listener it created, if any.
     */
    lemma RegisteredStep(before: map<string, SqsMessageListener>, k: nat, done: seq<SqsMessageListener>,
                         specs: seq<ListenerSpec>, prior: map<string, SqsMessageListener>, id: string,
                         next: seq<SqsMessageListener>)
      requires |done| < |specs| && |next| <= 1 && id == ListenerId(k + |done|)
      requires prior == PutEach(before, RunIds(k, |done|), done)
      requires forall i {:trigger ListenerFor(beanFactory, resolver, done[i], specs[i])} :: 0 <= i < |done| ==> ListenerFor(beanFactory, resolver, done[i], specs[i])
      requires listenerRegistry.registrations == k + |done| + |next|
      requires next == [] ==> listenerRegistry.listeners == prior
      requires |next| == 1 ==>
                 listenerRegistry.listeners == PutIfAbsent(prior, id, next[0]) &&
                 ListenerFor(beanFactory, resolver, next[0], specs[|done|])
      ensures Registered(before, k, done + next, specs)
    {
      RunExtends(before, k, done, prior, id, next, listenerRegistry.listeners);
      ListenersExtend(done, specs, next);
    }

    /** Listeners made for the first specs, and one more for the next, are made for the specs of the longer run. */
    lemma ListenersExtend(done: seq<SqsMessageListener>, specs: seq<ListenerSpec>, next: seq<SqsMessageListener>)
      requires |done| < |specs| && |next| <= 1
      requires forall i {:trigger ListenerFor(beanFactory, resolver, done[i], specs[i])} :: 0 <= i < |done| ==> ListenerFor(beanFactory, resolver, done[i], specs[i])
      requires |next| == 1 ==> ListenerFor(beanFactory, resolver, next[0], specs[|done|])
      ensures forall i {:trigger ListenerFor(beanFactory, resolver, (done + next)[i], specs[i])} :: 0 <= i < |done + next| ==>
                ListenerFor(beanFactory, resolver, (done + next)[i], specs[i])
    {
      var created := done + next;
      forall i | 0 <= i < |created|
        ensures ListenerFor(beanFactory, resolver, created[i], specs[i])
      {
        if i < |done| {
          assert created[i] == done[i];
        }
      }
    }

    /** `setBeanFactory`: only a `ConfigurableListableBeanFactory` is kept, with its expression resolver. */
    method SetBeanFactory(factory: BeanFactoryObject)
      modifies this`beanFactory, this`resolver
      ensures factory.ConfigurableListable? ==> beanFactory == Some(factory.factory) && resolver == factory.factory.expressionResolver
      ensures factory.OtherBeanFactory? ==> beanFactory == old(beanFactory) && resolver == old(resolver)
    {
      if factory.ConfigurableListable? {
        beanFactory := Some(factory.factory);
        resolver := factory.factory.expressionResolver;
      }
    }

    /** `buildMethodMapping`: the handler methods, in the introspector's order, folded into a mapping. */
    method BuildMethodMapping(handlerMethods: seq<HandlerEntry>, target: ClassRef) returns (r: Result<MethodMapping>)
      ensures r == MethodMappingOf(handlerMethods, target, selectInvocable)
    {
      var methodMap: map<string, MethodRef> := map[];
      var defaultMethod: Option<MethodRef> := None;
      for i := 0 to |handlerMethods|
        invariant MappingFrom(MethodMapping(methodMap, defaultMethod), handlerMethods[i..], target, selectInvocable)
                  == MethodMappingOf(handlerMethods, target, selectInvocable)
      {
        assert handlerMethods[i..][1..] == handlerMethods[i + 1..];
        var invocable := selectInvocable(handlerMethods[i].handlerMethod, target);
        var handlerAnnotation := handlerMethods[i].annotation;
        if IsBlank(handlerAnnotation.messageType) && !handlerAnnotation.isDefault {
          return Failure(IllegalArgument(BLANK_MESSAGE_TYPE));
        }
        if handlerAnnotation.isDefault {
          defaultMethod := Some(invocable);
        }
        if !IsBlank(handlerAnnotation.messageType) {
          methodMap := methodMap[handlerAnnotation.messageType := invocable];
        }
      }
      return Success(MethodMapping(methodMap, defaultMethod));
    }

    /**
     * Resolves the attributes of `annotation` for `handler`, has the factory make
     * the listener and registers it: one registration, unless an exception comes
     * first.
     */
    method RegisterListenerFor(annotation: SqsListenerAnnotation, handler: MessageHandler)
      returns (o: Outcome, ghost created: seq<SqsMessageListener>)
      requires Valid()
      modifies listenerRegistry
      ensures Valid()
      ensures |created| <= 1 && (o == Done ==> |created| == 1)
      ensures listenerRegistry.registrations == old(listenerRegistry.registrations) + |created|
      ensures forall i :: 0 <= i < |created| ==> fresh(created[i]) && ListenerFor(beanFactory, resolver, created[i], ListenerSpec(annotation, handler))
      ensures created == [] ==>
                listenerRegistry.listeners == old(listenerRegistry.listeners) &&
                listenerRegistry.registrations == old(listenerRegistry.registrations)
      ensures |created| == 1 ==>
                listenerRegistry.listeners ==
                  PutIfAbsent(old(listenerRegistry.listeners), ListenerId(old(listenerRegistry.registrations)), created[0])
      ensures listenerRegistry.applicationContext == old(listenerRegistry.applicationContext)
      ensures listenerRegistry.running == old(listenerRegistry.running)
      ensures CreateQueueAttributes(beanFactory, resolver, annotation, handler).Failure? ==>
                && o == Threw(CreateQueueAttributes(beanFactory, resolver, annotation, handler).error)
                && listenerRegistry.registrations == old(listenerRegistry.registrations)
      ensures messageListenerFactory.GetMessageProcessorExecutor().Failure? ==>
                o.Threw? && listenerRegistry.registrations == old(listenerRegistry.registrations)
      ensures o == Done ==> listenerRegistry.registrations == old(listenerRegistry.registrations) + 1
      ensures listenerRegistry.registrations <= old(listenerRegistry.registrations) + 1
    {
      created := [];
      var attributes := CreateQueueAttributes(beanFactory, resolver, annotation, handler);
      if attributes.Failure? {
        return Threw(attributes.error), created;
      }
      var listener := messageListenerFactory.CreateListener(attributes.value);
      if listener.Failure? {
        return Threw(listener.error), created;
      }
      created := [listener.value];
      o := listenerRegistry.RegisterListener(Some(listener.value));
    }

    /** Every method of a complete method-level run had its queue attributes resolved. */
    lemma MethodListenersAttributed(before: map<string, SqsMessageListener>, k: nat, created: seq<SqsMessageListener>,
                                    c: BeanClass, bean: ObjectRef)
      requires Registered(before, k, created, MethodListenerSpecs(c, bean)) && |created| == |c.listenerMethods|
      ensures forall i :: 0 <= i < |c.listenerMethods| ==>
                CreateQueueAttributes(beanFactory, resolver, c.listenerMethods[i].annotation,
                                      MethodHandler(c.listenerMethods[i].handlerMethod, bean)).Success?
    {
      var specs := MethodListenerSpecs(c, bean);
      forall i | 0 <= i < |c.listenerMethods|
        ensures CreateQueueAttributes(beanFactory, resolver, c.listenerMethods[i].annotation,
                                      MethodHandler(c.listenerMethods[i].handlerMethod, bean)).Success?
      {
        assert ListenerFor(beanFactory, resolver, created[i], specs[i]);
      }
    }

    /**
     * One turn of the method-level walk: registers the listener for the next of
     * `specs` after the run `done`, and extends the run by it when it was made.
     */
    method RegisterNext(ghost before: map<string, SqsMessageListener>, ghost k: nat,
                        ghost done: seq<SqsMessageListener>, ghost specs: seq<ListenerSpec>,
                        annotation: SqsListenerAnnotation, handler: MessageHandler)
      returns (o: Outcome, ghost created: seq<SqsMessageListener>)
      requires Valid() && |done| < |specs| && specs[|done|] == ListenerSpec(annotation, handler)
      requires Registered(before, k, done, specs)
      modifies listenerRegistry
      ensures Valid() && Registered(before, k, created, specs)
      ensures |done| <= |created| <= |done| + 1 && created[..|done|] == done
      ensures |created| > |done| ==> fresh(created[|done|])
      ensures o == Done ==> |created| == |done| + 1 && CreateQueueAttributes(beanFactory, resolver, annotation, handler).Success?
      ensures listenerRegistry.applicationContext == old(listenerRegistry.applicationContext)
      ensures listenerRegistry.running == old(listenerRegistry.running)
    {
      ghost var prior, id := listenerRegistry.listeners, ListenerId(listenerRegistry.registrations);
      assert id == ListenerId(k + |done|);
      ghost var next;
      o, next := RegisterListenerFor(annotation, handler);
      RegisteredStep(before, k, done, specs, prior, id, next);
      created := done + next;
    }

    /**
     * `processMultiMethodListener`: a class-level listener without handler
     * methods is cached as non-annotated; otherwise its handler methods make one
     * routing handler, and one listener is registered for it.
     */
    method ProcessMultiMethodListener(c: BeanClass, bean: ObjectRef)
      returns (o: Outcome, ghost created: seq<SqsMessageListener>)
      requires Valid() && c.listenerAnnotation.Some?
      modifies this`nonAnnotatedClasses, listenerRegistry
      ensures Valid()
      ensures Registered(old(listenerRegistry.listeners), old(listenerRegistry.registrations), created,
                         ListenerSpecs(c, bean, selectInvocable))
      ensures forall i :: 0 <= i < |created| ==> fresh(created[i])
      ensures o == Done ==> |created| == |ListenerSpecs(c, bean, selectInvocable)|
      ensures listenerRegistry.applicationContext == old(listenerRegistry.applicationContext)
      ensures listenerRegistry.running == old(listenerRegistry.running)
      ensures nonAnnotatedClasses == old(nonAnnotatedClasses) + (if |c.handlerMethods| == 0 then {c.ref} else {})
      ensures |c.handlerMethods| == 0 ==> o == Done && unchanged(listenerRegistry)
      ensures MethodMappingOf(c.handlerMethods, c.ref, selectInvocable).Failure? ==>
                o == Threw(IllegalArgument(BLANK_MESSAGE_TYPE)) && unchanged(listenerRegistry)
      ensures o == Done ==> listenerRegistry.registrations == old(listenerRegistry.registrations) + ListenerCount(c)
      ensures listenerRegistry.registrations <= old(listenerRegistry.registrations) + ListenerCount(c)
    {
      ghost var before, k := listenerRegistry.listeners, listenerRegistry.registrations;
      ghost var specs := ListenerSpecs(c, bean, selectInvocable);
      created := [];
      if |c.handlerMethods| == 0 {
        nonAnnotatedClasses := nonAnnotatedClasses + {c.ref};
        RegisteredNone(before, k, specs);
        return Done, created;
      }
      var methodMapping := BuildMethodMapping(c.handlerMethods, c.ref);
      if methodMapping.Failure? {
        MappingFromFails(MethodMapping(map[], None), c.handlerMethods, c.ref, selectInvocable);
        RegisteredNone(before, k, specs);
        return Threw(methodMapping.error), created;
      }
      o, created := RegisterListenerFor(c.listenerAnnotation.value, AttributeMappingHandler(bean, methodMapping.value));
      RegisteredFirst(before, k, specs, created);
    }

    /**
     * `processMethodLevelListener`: a class without `@SqsListener` methods is
     * cached as non-annotated; otherwise each method, in the introspector's
     * order, gets a listener of its own, until an exception ends the walk.
     */
    method ProcessMethodLevelListener(c: BeanClass, bean: ObjectRef)
      returns (o: Outcome, ghost created: seq<SqsMessageListener>)
      requires Valid()
      modifies this`nonAnnotatedClasses, listenerRegistry
      ensures Valid()
      ensures Registered(old(listenerRegistry.listeners), old(listenerRegistry.registrations), created,
                         MethodListenerSpecs(c, bean))
      ensures o == Done ==> |created| == |c.listenerMethods|
      ensures listenerRegistry.applicationContext == old(listenerRegistry.applicationContext)
      ensures listenerRegistry.running == old(listenerRegistry.running)
      ensures nonAnnotatedClasses == old(nonAnnotatedClasses) + (if |c.listenerMethods| == 0 then {c.ref} else {})
      ensures |c.listenerMethods| == 0 ==> o == Done && unchanged(listenerRegistry)
      ensures o == Done ==> listenerRegistry.registrations == old(listenerRegistry.registrations) + |c.listenerMethods|
      ensures listenerRegistry.registrations <= old(listenerRegistry.registrations) + |c.listenerMethods|
      ensures o == Done ==> forall i :: 0 <= i < |c.listenerMethods| ==>
                CreateQueueAttributes(beanFactory, resolver, c.listenerMethods[i].annotation,
                                      MethodHandler(c.listenerMethods[i].handlerMethod, bean)).Success?
    {
      created := [];
      ghost var specs := MethodListenerSpecs(c, bean);
      ghost var before, k := listenerRegistry.listeners, listenerRegistry.registrations;
      RegisteredNone(before, k, specs);
      if |c.listenerMethods| == 0 {
        nonAnnotatedClasses := nonAnnotatedClasses + {c.ref};
        return Done, created;
      }
      o := Done;
      for i := 0 to |c.listenerMethods|
        invariant Valid() && nonAnnotatedClasses == old(nonAnnotatedClasses)
        invariant |created| == i && Registered(before, k, created, specs)
        invariant listenerRegistry.applicationContext == old(listenerRegistry.applicationContext)
        invariant listenerRegistry.running == old(listenerRegistry.running)
      {
        var entry := c.listenerMethods[i];
        o, created := RegisterNext(before, k, created, specs, entry.annotation, MethodHandler(entry.handlerMethod, bean));
        if o.Threw? {
          return;
        }
      }
      MethodListenersAttributed(before, k, created, c, bean);
    }

    /**
     * `postProcessAfterInitialization`: AOP infrastructure, classes already known
     * to carry no listener and classes that cannot carry the annotation are
     * passed over; a class with `@SqsListener` is one listener, any other has one
     * listener per annotated method.
     */
    method PostProcessAfterInitialization(bean: Bean) returns (o: Outcome, ghost created: seq<SqsMessageListener>)
      requires Valid()
      modifies this`nonAnnotatedClasses, listenerRegistry
      ensures Valid()
      ensures Registered(old(listenerRegistry.listeners), old(listenerRegistry.registrations), created,
                         if Inspected(bean, old(nonAnnotatedClasses)) then ListenerSpecs(bean.targetClass, bean.ref, selectInvocable) else [])
      ensures o == Done && Inspected(bean, old(nonAnnotatedClasses)) ==>
                |created| == |ListenerSpecs(bean.targetClass, bean.ref, selectInvocable)|
      ensures listenerRegistry.applicationContext == old(listenerRegistry.applicationContext)
      ensures listenerRegistry.running == old(listenerRegistry.running)
      ensures !Inspected(bean, old(nonAnnotatedClasses)) ==>
                o == Done && nonAnnotatedClasses == old(nonAnnotatedClasses) && unchanged(listenerRegistry)
      ensures Inspected(bean, old(nonAnnotatedClasses)) ==>
                nonAnnotatedClasses == old(nonAnnotatedClasses) +
                  (if ListenerCount(bean.targetClass) == 0 then {bean.targetClass.ref} else {})
      ensures o == Done ==>
                listenerRegistry.registrations == old(listenerRegistry.registrations) +
                  (if Inspected(bean, old(nonAnnotatedClasses)) then ListenerCount(bean.targetClass) else 0)
    {
      o, created := Done, [];
      if bean.aopInfrastructure {
        return;
      }
      var targetClass := bean.targetClass;
      if targetClass.ref !in nonAnnotatedClasses && targetClass.candidate {
        if targetClass.listenerAnnotation.Some? {
          o, created := ProcessMultiMethodListener(targetClass, bean.ref);
        } else {
          o, created := ProcessMethodLevelListener(targetClass, bean.ref);
        }
      }
    }
  }
}
