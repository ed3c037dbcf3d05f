/**
 * `SqsMessageListenerManager`: the Spring bean that owns the listeners the
 * `@SqsMessageHandler` post-processor creates. It keeps them by id, registers
 * each as a singleton bean and initializes it, starts them all once its own
 * application context has been refreshed, and destroys them all on stop.
 */
module Manager {
  import opened JavaLang
  import opened SqsTypes
  import opened SpringBeans
  import opened Listener

  const ALREADY_BOUND: string := "Could not register object under bean name: there is already an object bound"

  /** What the manager logs or asks of the bean factory, in order. */
  datatype Event =
    | AlreadyRegisteredWarning(id: string)
    | SingletonRegistered(id: string, listener: SqsMessageListener)

  /** A listener whose `start` throws: it is stopped, has consumers to schedule, and its loop executor refuses them. */
  predicate FailsToStart(c: Config) {
    !c.isRunning && c.consumerCount > 0 && SubmitCheck(c.consumerLoopExecutor).Threw?
  }

  /** A listener whose `destroy` throws: one of its executors was never created. */
  predicate Uninitialized(c: Config) {
    c.taskExecutor.None? || c.consumerLoopExecutor.None?
  }

  /**
   * What `start` may have done to a listener that was in state `before` with
   * consumers `consumers` and id generator at `serial`: only its running flag
   * may have been set; a listener that was running is left as it was, one still
   * stopped keeps its consumers, and one it started got `consumerCount` new
   * running consumers over its queue.
   */
  ghost predicate Restarted(before: Config, consumers: map<ConsumerId, Consumer>, serial: nat, listener: SqsMessageListener)
    reads listener
  {
    && listener.State() == before.(isRunning := listener.isRunning)
    && (before.isRunning ==> listener.isRunning && listener.consumerMap == consumers)
    && (!listener.isRunning ==> listener.consumerMap == consumers)
    && (listener.isRunning && !before.isRunning ==>
          AddedFresh(consumers, listener.consumerMap, serial, Max0(before.consumerCount), before.queue))
  }

  /** The executor `e` after `shutdown()`. */
  function ShutDown(e: Option<Executor>): (r: Option<Executor>)
    ensures r.Some? == e.Some?
    ensures r.Some? ==> r.value.shutDown && r.value.kind == e.value.kind
  {
    if e.Some? then Some(e.value.(shutDown := true)) else None
  }

  /** `SqsMessageListener::start`, as the manager sees it. */
  method StartOne(listener: SqsMessageListener) returns (o: Outcome)
    requires listener.Valid()
    modifies listener
    ensures listener.Valid()
    ensures Restarted(old(listener.State()), old(listener.consumerMap), old(listener.nextSerial), listener)
    ensures o == Done ==> listener.isRunning
    ensures o.Threw? <==> FailsToStart(old(listener.State()))
  {
    o := listener.Start();
  }

  /**
   * What `stop` may have done to a listener that was in state `before`: it is
   * valid, keeps its flag, queue and count, and each executor is as it was or
   * shut down.
   */
  ghost predicate Stopping(before: Config, listener: SqsMessageListener)
    reads listener
  {
    && listener.Valid()
    && listener.isRunning == before.isRunning && listener.queue == before.queue
    && listener.consumerCount == before.consumerCount
    && Uninitialized(listener.State()) == Uninitialized(before)
    && (listener.taskExecutor == before.taskExecutor || listener.taskExecutor == ShutDown(before.taskExecutor))
    && (listener.consumerLoopExecutor == before.consumerLoopExecutor ||
        listener.consumerLoopExecutor == ShutDown(before.consumerLoopExecutor))
  }

  /** What a `destroy` that returned did to a listener that was in state `before`: no consumer is left and both executors are shut down. */
  ghost predicate Destroyed(before: Config, listener: SqsMessageListener)
    reads listener
  {
    && listener.consumerMap == map[]
    && !Uninitialized(before)
    && listener.taskExecutor == ShutDown(before.taskExecutor)
    && listener.consumerLoopExecutor == ShutDown(before.consumerLoopExecutor)
  }

  /**
   * `SqsMessageListener::destroy`, as the manager sees it: the consumers are
   * dropped and the executors shut down; it throws exactly when one of them
   * was never created. `terminated` says whether each pool ends within its
   * wait. `before` is the state the listener had when `stop` began.
   */
  method DestroyOne(listener: SqsMessageListener, terminated: (bool, bool), ghost before: Config) returns (o: Outcome)
    requires Stopping(before, listener)
    modifies listener
    ensures Stopping(before, listener)
    ensures listener.consumerMap == map[]
    ensures o.Threw? <==> Uninitialized(before)
    ensures o == Done ==> Destroyed(before, listener)
  {
    var stopped, warned;
    o, stopped, warned := listener.Destroy(terminated.0, terminated.1);
  }

  /** Taking a member out of a set makes it smaller. */
  lemma Shrinks<T>(s: set<T>, x: T)
    requires x in s
    ensures |s - {x}| < |s|
  {
  }

  /** Each listener's configuration as a walk over `listeners` begins, by listener. */
  ghost function StatesOf(listeners: map<string, SqsMessageListener>): (m: map<SqsMessageListener, Config>)
    reads listeners.Values
    ensures m.Keys == listeners.Values
  {
    map l | l in listeners.Values :: l.State()
  }

  /** Each listener's consumers as a walk over `listeners` begins, by listener. */
  ghost function ConsumersOf(listeners: map<string, SqsMessageListener>): (m: map<SqsMessageListener, map<ConsumerId, Consumer>>)
    reads listeners.Values
    ensures m.Keys == listeners.Values
  {
    map l | l in listeners.Values :: l.consumerMap
  }

  /** Each listener's id generator as a walk over `listeners` begins, by listener. */
  ghost function SerialsOf(listeners: map<string, SqsMessageListener>): (m: map<SqsMessageListener, nat>)
    reads listeners.Values
    ensures m.Keys == listeners.Values
  {
    map l | l in listeners.Values :: l.nextSerial
  }

  /** Every listener is valid and `Restarted` from the state it had as the walk began. */
  ghost predicate Restarts(listeners: map<string, SqsMessageListener>, states: map<SqsMessageListener, Config>,
                           consumers: map<SqsMessageListener, map<ConsumerId, Consumer>>, serials: map<SqsMessageListener, nat>)
    reads listeners.Values
  {
    && listeners.Values <= states.Keys && listeners.Values <= consumers.Keys && listeners.Values <= serials.Keys
    && forall l :: l in listeners.Values ==> l.Valid() && Restarted(states[l], consumers[l], serials[l], l)
  }

  /**
   * The walk of `start` with `remaining` ids left: every id visited runs, a
   * listener still stopped has not moved its id generator, and a listener that
   * cannot start is still stopped.
   */
  ghost predicate StartProgress(listeners: map<string, SqsMessageListener>, states: map<SqsMessageListener, Config>,
                                serials: map<SqsMessageListener, nat>, remaining: set<string>)
    reads listeners.Values
  {
    && listeners.Values <= states.Keys && listeners.Values <= serials.Keys
    && (forall l :: l in listeners.Values ==>
          && (!l.isRunning ==> l.nextSerial == serials[l])
          && (FailsToStart(states[l]) ==> !l.isRunning))
    && (forall id :: id in listeners && id !in remaining ==> listeners[id].isRunning)
  }

  /** As `start` begins, every listener is as it was, and no id has been visited. */
  lemma StartBegins(listeners: map<string, SqsMessageListener>)
    requires forall id :: id in listeners ==> listeners[id].Valid()
    ensures Restarts(listeners, StatesOf(listeners), ConsumersOf(listeners), SerialsOf(listeners))
    ensures StartProgress(listeners, StatesOf(listeners), SerialsOf(listeners), listeners.Keys)
  {
  }

  /** When `start` has visited every id, every listener runs, and so none of them was one that cannot start. */
  lemma StartEnds(listeners: map<string, SqsMessageListener>, states: map<SqsMessageListener, Config>,
                  serials: map<SqsMessageListener, nat>)
    requires StartProgress(listeners, states, serials, {})
    ensures forall l :: l in listeners.Values ==> l.isRunning && !FailsToStart(states[l])
  {
    forall l | l in listeners.Values
      ensures l.isRunning
    {
      var id :| id in listeners && listeners[id] == l;
    }
  }

  /**
   * The walk of `start` over `listeners`, in the map's enumeration order: each
   * listener is started, and an exception from one of them ends the walk.
   */
  method StartEach(listeners: map<string, SqsMessageListener>) returns (o: Outcome)
    requires forall id :: id in listeners ==> listeners[id].Valid()
    modifies listeners.Values
    ensures forall id :: id in listeners ==> listeners[id].Valid()
    ensures forall l :: l in listeners.Values ==> Restarted(old(l.State()), old(l.consumerMap), old(l.nextSerial), l)
    ensures o == Done ==> forall l :: l in listeners.Values ==> l.isRunning
    ensures o.Threw? <==> exists l :: l in listeners.Values && FailsToStart(old(l.State()))
  {
    o := Done;
    ghost var states, consumers, serials := StatesOf(listeners), ConsumersOf(listeners), SerialsOf(listeners);
    StartBegins(listeners);
    var remaining := listeners.Keys;
    while remaining != {}
      invariant remaining <= listeners.Keys
      invariant Restarts(listeners, states, consumers, serials)
      invariant StartProgress(listeners, states, serials, remaining)
      invariant o == Done
      decreases |remaining|
    {
      var id :| id in remaining;
      o := StartStep(listeners, id, remaining, states, consumers, serials);
      if o.Threw? {
        return;
      }
      Shrinks(remaining, id);
      remaining := remaining - {id};
    }
    StartEnds(listeners, states, serials);
  }

  /** One step of `start`: the listener under `id` is started. */
  method StartStep(listeners: map<string, SqsMessageListener>, id: string, ghost remaining: set<string>,
                   ghost states: map<SqsMessageListener, Config>, ghost consumers: map<SqsMessageListener, map<ConsumerId, Consumer>>,
                   ghost serials: map<SqsMessageListener, nat>)
    returns (o: Outcome)
    requires id in listeners
    requires Restarts(listeners, states, consumers, serials) && StartProgress(listeners, states, serials, remaining)
    modifies listeners[id]
    ensures Restarts(listeners, states, consumers, serials)
    ensures o.Threw? <==> FailsToStart(states[listeners[id]])
    ensures o == Done ==> StartProgress(listeners, states, serials, remaining - {id})
  {
    var listener := listeners[id];
    o := StartOne(listener);
  }

  /**
   * The walk of `stop` with `remaining` ids left: every listener is `Stopping`
   * from the state it had as the walk began, and every id visited holds a
   * listener `Destroyed` from it.
   */
  ghost predicate StopProgress(listeners: map<string, SqsMessageListener>, states: map<SqsMessageListener, Config>,
                               remaining: set<string>)
    reads listeners.Values
  {
    && listeners.Values <= states.Keys
    && (forall l :: l in listeners.Values ==> Stopping(states[l], l))
    && (forall id :: id in listeners && id !in remaining ==> Destroyed(states[listeners[id]], listeners[id]))
  }

  /** One step of `stop`: the listener under `id` is destroyed. */
  method StopStep(listeners: map<string, SqsMessageListener>, id: string, terminated: (bool, bool), ghost remaining: set<string>,
                  ghost states: map<SqsMessageListener, Config>)
    returns (o: Outcome)
    requires id in listeners && StopProgress(listeners, states, remaining)
    modifies listeners[id]
    ensures o.Threw? <==> Uninitialized(states[listeners[id]])
    ensures forall l :: l in listeners.Values ==> Stopping(states[l], l)
    ensures o == Done ==> StopProgress(listeners, states, remaining - {id})
  {
    var listener := listeners[id];
    o := DestroyOne(listener, terminated, states[listener]);
  }

  /**
   * The walk of `stop` over `listeners`, in the map's enumeration order: each
   * listener is destroyed, and an exception from one of them ends the walk.
   * `states` holds the listeners' states as the walk begins.
   */
  method StopEach(listeners: map<string, SqsMessageListener>, terminated: string -> (bool, bool),
                  ghost states: map<SqsMessageListener, Config>) returns (o: Outcome)
    requires states == StatesOf(listeners)
    requires forall id :: id in listeners ==> listeners[id].Valid()
    modifies listeners.Values
    ensures forall l :: l in listeners.Values ==> Stopping(states[l], l)
    ensures o == Done ==> forall id :: id in listeners ==> Destroyed(states[listeners[id]], listeners[id])
    ensures o.Threw? <==> exists l :: l in listeners.Values && Uninitialized(states[l])
  {
    o := Done;
    var remaining := listeners.Keys;
    while remaining != {}
      invariant remaining <= listeners.Keys
      invariant StopProgress(listeners, states, remaining)
      invariant o == Done
      decreases |remaining|
    {
      var id :| id in remaining;
      o := StopStep(listeners, id, terminated(id), remaining, states);
      if o.Threw? {
        return;
      }
      Shrinks(remaining, id);
      remaining := remaining - {id};
    }
  }

  class SqsMessageListenerManager {
    var applicationContext: Option<ContextRef>
    var contextRefreshed: bool
    var listeners: map<string, SqsMessageListener>
    /** The bean names the manager has bound in the context's bean factory. */
    var bound: set<string>
    var events: seq<Event>

    /** Every listener the manager holds is in a consistent state. */
    ghost predicate Valid()
      reads this, listeners.Values
    {
      forall id :: id in listeners ==> listeners[id].Valid()
    }

    constructor ()
      ensures Valid() && applicationContext == None && !contextRefreshed
      ensures listeners == map[] && bound == {} && events == []
    {
      applicationContext, contextRefreshed := None, false;
      listeners, bound, events := map[], {}, [];
    }

    /** `setApplicationContext`: only a `ConfigurableApplicationContext` is kept. */
    method SetApplicationContext(context: ApplicationContextObject)
      modifies this
      ensures applicationContext == if context.configurable then Some(context.ref) else old(applicationContext)
      ensures contextRefreshed == old(contextRefreshed) && listeners == old(listeners)
      ensures bound == old(bound) && events == old(events)
    {
      if context.configurable {
        applicationContext := Some(context.ref);
      }
    }

    /**
     * `onApplicationEvent(ContextRefreshedEvent)`: only the refresh of the
     * manager's own context counts; the flag is never cleared.
     */
    method OnApplicationEvent(refreshed: ContextRef)
      modifies this`contextRefreshed
      ensures contextRefreshed == (old(contextRefreshed) || applicationContext == Some(refreshed))
    {
      if applicationContext == Some(refreshed) {
        contextRefreshed := true;
      }
    }

    /**
     * `registerListener`: a null listener is a NullPointerException. Otherwise a
     * listener already under `id` is replaced, with a warning; the new one is
     * registered as a singleton bean under `id` (a null context is a
     * NullPointerException, a name the manager has bound before makes Spring
     * throw IllegalStateException), and only then initialized.
     */
    method RegisterListener(id: string, listener: SqsMessageListener?) returns (o: Outcome)
      requires Valid() && (listener != null ==> listener.Valid())
      modifies this, listener
      ensures Valid()
      ensures applicationContext == old(applicationContext) && contextRefreshed == old(contextRefreshed)
      ensures listener == null ==>
                o == Threw(NullPointer) && listeners == old(listeners) && bound == old(bound) && events == old(events)
      ensures listener != null ==>
                && listeners == old(listeners)[id := listener]
                && ghost var warning := if id in old(listeners) then [AlreadyRegisteredWarning(id)] else [];
                && (applicationContext.None? ==>
                      o == Threw(NullPointer) && bound == old(bound) && events == old(events) + warning
                      && unchanged(listener))
                && (applicationContext.Some? && id in old(bound) ==>
                      o == Threw(IllegalState(ALREADY_BOUND)) && bound == old(bound) && events == old(events) + warning
                      && unchanged(listener))
                && (applicationContext.Some? && id !in old(bound) ==>
                      && bound == old(bound) + {id}
                      && events == old(events) + warning + [SingletonRegistered(id, listener)]
                      && listener.consumerMap == old(listener.consumerMap)
                      && listener.isRunning == old(listener.isRunning)
                      && listener.queue == old(listener.queue)
                      && listener.consumerCount == old(listener.consumerCount)
                      && (listener.consumerCount <= 0 ==> o == Threw(IllegalArgument("")))
                      && (listener.consumerCount > 0 ==>
                            && listener.consumerLoopExecutor == Some(Executor(FixedThreadPool(listener.consumerCount, CONSUMER_LOOP_THREAD_PREFIX), false))
                            && (listener.taskExecutor, o) == InitialTaskExecutor(old(listener.taskExecutor), listener.queue, listener.consumerCount)))
    {
      if listener == null {
        return Threw(NullPointer);
      }
      if id in listeners {
        events := events + [AlreadyRegisteredWarning(id)];
      }
      listeners := listeners[id := listener];
      if applicationContext.None? {
        return Threw(NullPointer);
      }
      if id in bound {
        return Threw(IllegalState(ALREADY_BOUND));
      }
      bound := bound + {id};
      events := events + [SingletonRegistered(id, listener)];
      o := listener.Initialize();
    }

    /** `isRunning`: whether some registered listener is running. */
    method IsRunning() returns (r: bool)
      ensures r <==> exists id :: id in listeners && listeners[id].isRunning
    {
      var remaining := listeners.Keys;
      while remaining != {}
        invariant remaining <= listeners.Keys
        invariant forall id :: id in listeners && id !in remaining ==> !listeners[id].isRunning
        decreases |remaining|
      {
        var id :| id in remaining;
        if listeners[id].IsRunning() {
          return true;
        }
        remaining := remaining - {id};
      }
      return false;
    }

    /**
     * `start`: before the manager's context has been refreshed, nothing; after,
     * every listener is started in the map's enumeration order, and an exception
     * from one of them ends the walk. A listener already running is left as it
     * is; one started gets its consumers. The walk throws exactly when some
     * listener cannot start.
     */
    method Start() returns (o: Outcome)
      requires Valid()
      modifies listeners.Values
      ensures Valid()
      ensures !contextRefreshed ==> o == Done && forall id :: id in listeners ==> unchanged(listeners[id])
      ensures forall l :: l in listeners.Values ==> Restarted(old(l.State()), old(l.consumerMap), old(l.nextSerial), l)
      ensures contextRefreshed && o == Done ==> forall l :: l in listeners.Values ==> l.isRunning
      ensures o.Threw? <==> contextRefreshed && exists l :: l in listeners.Values && FailsToStart(old(l.State()))
    {
      o := Done;
      if !contextRefreshed {
        return;
      }
      o := StartEach(listeners);
    }

    /**
     * `stop`: every listener is destroyed in the map's enumeration order, and an
     * exception from one of them ends the walk; `terminated` says, per id,
     * whether the two pools of that listener end within the wait of `destroy`.
     * The walk throws exactly when some listener was never initialized; when it
     * completes, each listener has no consumer left and both its executors are
     * shut down, and none of them stops counting as running.
     */
    method Stop(terminated: string -> (bool, bool)) returns (o: Outcome)
      requires Valid()
      modifies listeners.Values
      ensures Valid()
      ensures forall id :: id in listeners ==> Stopping(old(listeners[id].State()), listeners[id])
      ensures o.Threw? <==> exists id :: id in listeners && Uninitialized(old(listeners[id].State()))
      ensures o == Done ==> forall id :: id in listeners ==> Destroyed(old(listeners[id].State()), listeners[id])
    {
      o := StopEach(listeners, terminated, StatesOf(listeners));
    }
  }
}

module ManagerScenarios {
  import opened JavaLang
  import opened SqsTypes
  import opened SpringBeans
  import opened Queue
  import opened Listener
  import opened Manager

  /** A fresh manager with its context set and one listener, of queue `q`, registered as "orders". */
  method RegisteredOrders(client: ClientRef, q: SqsQueue, context: ContextRef)
    returns (manager: SqsMessageListenerManager, listener: SqsMessageListener)
    requires q.maxBatchSize == Some(10)
    ensures fresh(manager) && fresh(listener)
    ensures manager.Valid() && !manager.contextRefreshed
    ensures manager.applicationContext == Some(context)
    ensures manager.listeners == map["orders" := listener]
    ensures listener.State() == Config(Some(q), Some(Executor(ThreadPool(11, 120, "sqs-listener", true), false)),
                                       Some(Executor(FixedThreadPool(1, CONSUMER_LOOP_THREAD_PREFIX), false)), 1, false)
  {
    manager := new SqsMessageListenerManager();
    manager.SetApplicationContext(ApplicationContextObject(context, true));
    listener := new SqsMessageListener(Some(client));
    listener.SetQueue(Some(q));
    assert PoolSize(Some(q), 1) == Success(11);
    var o := manager.RegisterListener("orders", listener);
  }

  /**
   * A listener registered with the manager is not started before the context
   * refresh; after it, `start` runs it. `stop` destroys it, yet the manager still
   * reports running, because `destroy` never clears the listener's flag.
   */
  method StartAfterRefreshScenario(client: ClientRef, q: SqsQueue, context: ContextRef)
    returns (runningBeforeRefresh: bool, runningAfterStart: bool, runningAfterStop: bool, consumersAfterStop: nat)
    requires q.maxBatchSize == Some(10)
    ensures !runningBeforeRefresh && runningAfterStart && runningAfterStop && consumersAfterStop == 0
  {
    var manager, listener;
    manager, listener, runningBeforeRefresh := StartedOrders(client, q, context);
    runningAfterStart := manager.IsRunning();
    assert manager.listeners["orders"] == listener;
    var o := manager.Stop(_ => (true, true));
    assert manager.listeners["orders"] == listener;
    runningAfterStop := manager.IsRunning();
    consumersAfterStop := |listener.consumerMap|;
  }

  /** The first half of the scenario above: `start` before and after the refresh. */
  method StartedOrders(client: ClientRef, q: SqsQueue, context: ContextRef)
    returns (manager: SqsMessageListenerManager, listener: SqsMessageListener, runningBeforeRefresh: bool)
    requires q.maxBatchSize == Some(10)
    ensures fresh(manager) && fresh(listener)
    ensures manager.Valid() && manager.listeners == map["orders" := listener]
    ensures !runningBeforeRefresh && listener.isRunning && !Uninitialized(listener.State())
  {
    manager, listener := RegisteredOrders(client, q, context);
    var o := manager.Start();
    runningBeforeRefresh := manager.IsRunning();
    manager.OnApplicationEvent(context);
    assert !FailsToStart(listener.State());
    o := manager.Start();
    assert manager.listeners["orders"] == listener;
  }

  /**
   * Registering a second listener under an id already registered replaces the
   * first, logs a warning, and then fails in the bean factory, which already
   * holds that name: the replacement is never initialized.
   */
  method DuplicateIdScenario(client: ClientRef, q: SqsQueue, context: ContextRef)
    returns (o: Outcome, replaced: bool, initialized: bool, warned: bool)
    requires q.maxBatchSize == Some(10)
    ensures o == Threw(IllegalState(ALREADY_BOUND)) && replaced && !initialized && warned
  {
    var manager := new SqsMessageListenerManager();
    manager.SetApplicationContext(ApplicationContextObject(context, true));
    var first := new SqsMessageListener(Some(client));
    first.SetQueue(Some(q));
    o := manager.RegisterListener("orders", first);
    var second := new SqsMessageListener(Some(client));
    second.SetQueue(Some(q));
    o := manager.RegisterListener("orders", second);
    replaced := manager.listeners == map["orders" := second];
    initialized := second.consumerLoopExecutor.Some?;
    warned := AlreadyRegisteredWarning("orders") in manager.events;
  }
}
